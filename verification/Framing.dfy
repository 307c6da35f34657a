/**
  Length-prefixed JSON frames between the Worker and its MT5 process (abt/worker/wine_mt5_protocol.py).
*/
module Framing {
  import opened Prelude

  type byte = x: int | 0 <= x < 256

  const QUOTE: byte := 34
  const BACKSLASH: byte := 92

  const MAX_FRAME_BYTES := 4 * 1024 * 1024
  const MAX_DEPTH := 128

  // ---- JSON text -------------------------------------------------------------------------------

  /** One unit of a JSON string (section 7 of RFC 8259): a byte of UTF-8 that needs no escape, a two-character
      escape, or four hexadecimal digits after a backslash and a `u`. */
  datatype Unit = Raw(b: byte) | Escape(b: byte) | Hex(digits: seq<byte>)

  /** A JSON text, with whatever white space its writer put between the tokens. */
  datatype Json =
    | Literal(text: seq<byte>)                       // null, true, false, or a number
    | Text(units: seq<Unit>)
    | Array(blank: seq<byte>, items: seq<Json>)
    | Object(blank: seq<byte>, members: seq<Member>)
    | Padded(before: seq<byte>, inner: Json, after: seq<byte>)

  datatype Member = Member(before: seq<byte>, name: seq<Unit>, after: seq<byte>, value: Json)

  /** Structural bytes: quote, backslash, brackets and braces. */
  predicate Plain(b: byte) {
    b !in {QUOTE, BACKSLASH, 91, 93, 123, 125}
  }

  ghost predicate AllPlain(s: seq<byte>) {
    forall k :: 0 <= k < |s| ==> Plain(s[k])
  }

  ghost predicate UnitOk(u: Unit) {
    match u
    case Raw(b) => b >= 32 && b != QUOTE && b != BACKSLASH
    case Escape(b) => b in {QUOTE, BACKSLASH, 47, 98, 102, 110, 114, 116}
    case Hex(d) => |d| == 4 && forall k :: 0 <= k < 4 ==> 48 <= d[k] <= 57 || 65 <= d[k] <= 70 || 97 <= d[k] <= 102
  }

  ghost predicate UnitsOk(s: seq<Unit>) {
    forall k :: 0 <= k < |s| ==> UnitOk(s[k])
  }

  ghost predicate WellFormed(j: Json) {
    match j
    case Literal(text) => AllPlain(text)
    case Text(units) => UnitsOk(units)
    case Array(blank, items) => AllPlain(blank) && forall k :: 0 <= k < |items| ==> WellFormed(items[k])
    case Object(blank, members) =>
      AllPlain(blank) && forall k :: 0 <= k < |members| ==>
        AllPlain(members[k].before) && UnitsOk(members[k].name) && AllPlain(members[k].after) && WellFormed(members[k].value)
    case Padded(before, inner, after) => AllPlain(before) && AllPlain(after) && WellFormed(inner)
  }

  function UnitText(u: Unit): seq<byte> {
    match u
    case Raw(b) => [b]
    case Escape(b) => [BACKSLASH, b]
    case Hex(d) => [BACKSLASH, 117] + d
  }

  function UnitsText(s: seq<Unit>): seq<byte> {
    if s == [] then [] else UnitText(s[0]) + UnitsText(s[1..])
  }

  function Quoted(s: seq<Unit>): seq<byte> {
    [QUOTE] + UnitsText(s) + [QUOTE]
  }

  function Serialize(j: Json): seq<byte>
    decreases j, 1
  {
    match j
    case Literal(text) => text
    case Text(units) => Quoted(units)
    case Array(blank, items) => [91] + blank + Items(j, items, 0) + [93]
    case Object(blank, members) => [123] + blank + Members(j, members, 0) + [125]
    case Padded(before, inner, after) => before + Serialize(inner) + after
  }

  /** Items from the k-th on, separated by commas. */
  function Items(ghost parent: Json, items: seq<Json>, k: nat): seq<byte>
    requires k <= |items| && forall i :: 0 <= i < |items| ==> items[i] < parent
    decreases parent, 0, |items| - k
  {
    if k == |items| then []
    else Serialize(items[k]) + (if k + 1 < |items| then [44] else []) + Items(parent, items, k + 1)
  }

  function Members(ghost parent: Json, members: seq<Member>, k: nat): seq<byte>
    requires k <= |members| && forall i :: 0 <= i < |members| ==> members[i].value < parent
    decreases parent, 0, |members| - k
  {
    if k == |members| then []
    else
      members[k].before + Quoted(members[k].name) + members[k].after + [58] + Serialize(members[k].value)
      + (if k + 1 < |members| then [44] else []) + Members(parent, members, k + 1)
  }

  function Max(a: int, b: int): int {
    if a >= b then a else b
  }

  /** How deep arrays and objects are nested in each other. */
  function Depth(j: Json): (d: nat)
    decreases j, 1
  {
    match j
    case Literal(_) => 0
    case Text(_) => 0
    case Array(_, items) => 1 + ItemsDepth(j, items, 0)
    case Object(_, members) => 1 + MembersDepth(j, members, 0)
    case Padded(_, inner, _) => Depth(inner)
  }

  function ItemsDepth(ghost parent: Json, items: seq<Json>, k: nat): (d: nat)
    requires k <= |items| && forall i :: 0 <= i < |items| ==> items[i] < parent
    decreases parent, 0, |items| - k
  {
    if k == |items| then 0 else Max(Depth(items[k]), ItemsDepth(parent, items, k + 1))
  }

  function MembersDepth(ghost parent: Json, members: seq<Member>, k: nat): (d: nat)
    requires k <= |members| && forall i :: 0 <= i < |members| ==> members[i].value < parent
    decreases parent, 0, |members| - k
  {
    if k == |members| then 0 else Max(Depth(members[k].value), MembersDepth(parent, members, k + 1))
  }

  // ---- the scanner -----------------------------------------------------------------------------

  datatype Scan = Scan(depth: int, inString: bool, escaped: bool, peak: int)

  const Begin := Scan(0, false, false, 0)

  /** One turn of the loop in `_reject_excessive_nesting`, remembering the greatest depth so far. */
  function Turn(s: Scan, b: byte): Scan {
    if s.inString then
      if s.escaped then s.(escaped := false)
      else if b == BACKSLASH then s.(escaped := true)
      else if b == QUOTE then s.(inString := false)
      else s
    else if b == QUOTE then s.(inString := true)
    else if b == 91 || b == 123 then s.(depth := s.depth + 1, peak := Max(s.peak, s.depth + 1))
    else if b == 93 || b == 125 then s.(depth := s.depth - 1)
    else s
  }

  function ScanAll(s: Scan, text: seq<byte>): Scan
    decreases |text|
  {
    if text == [] then s else ScanAll(Turn(s, text[0]), text[1..])
  }

  lemma {:induction false} ScanAppend(s: Scan, one: seq<byte>, two: seq<byte>)
    ensures ScanAll(s, one + two) == ScanAll(ScanAll(s, one), two)
    decreases |one|
  {
    if one == [] {
      assert one + two == two;
    } else {
      assert (one + two)[1..] == one[1..] + two;
      ScanAppend(Turn(s, one[0]), one[1..], two);
    }
  }

  lemma {:induction false} ScanPlain(s: Scan, text: seq<byte>)
    requires AllPlain(text) && !s.inString
    ensures ScanAll(s, text) == s
    decreases |text|
  {
    if text != [] {
      assert Plain(text[0]);
      assert AllPlain(text[1..]);
      ScanPlain(s, text[1..]);
    }
  }

  /** Outside strings at some depth; the peak already covers it. */
  predicate Between(s: Scan) {
    !s.inString && !s.escaped && s.depth <= s.peak
  }

  lemma ScanUnit(s: Scan, u: Unit)
    requires UnitOk(u) && s.inString && !s.escaped
    ensures ScanAll(s, UnitText(u)) == s
  {
    match u {
      case Raw(b) => assert ScanAll(s, [b]) == ScanAll(Turn(s, b), [b][1..]);
      case Escape(b) =>
        var t := Turn(s, BACKSLASH);
        assert [BACKSLASH, b][1..] == [b] && [b][1..] == [];
        assert ScanAll(s, [BACKSLASH, b]) == ScanAll(t, [b]);
        assert ScanAll(t, [b]) == ScanAll(Turn(t, b), []);
      case Hex(d) => ScanHex(s, d);
    }
  }

  lemma ScanHex(s: Scan, d: seq<byte>)
    requires UnitOk(Hex(d)) && s.inString && !s.escaped
    ensures ScanAll(s, [BACKSLASH, 117] + d) == s
  {
    ScanAppend(s, [BACKSLASH, 117], d);
    var t := Turn(s, BACKSLASH);
    assert [BACKSLASH, 117][1..] == [117] && [117][1..] == [];
    assert ScanAll(s, [BACKSLASH, 117]) == ScanAll(t, [117]);
    assert ScanAll(t, [117]) == ScanAll(Turn(t, 117), []);
    ScanDigits(s, d);
  }

  lemma {:induction false} ScanDigits(s: Scan, d: seq<byte>)
    requires s.inString && !s.escaped && forall k :: 0 <= k < |d| ==> d[k] != QUOTE && d[k] != BACKSLASH
    ensures ScanAll(s, d) == s
    decreases |d|
  {
    if d != [] { ScanDigits(s, d[1..]); }
  }

  lemma {:induction false} ScanUnits(s: Scan, units: seq<Unit>)
    requires UnitsOk(units) && s.inString && !s.escaped
    ensures ScanAll(s, UnitsText(units)) == s
    decreases |units|
  {
    if units != [] {
      assert UnitOk(units[0]);
      assert UnitsOk(units[1..]);
      ScanAppend(s, UnitText(units[0]), UnitsText(units[1..]));
      ScanUnit(s, units[0]);
      ScanUnits(s, units[1..]);
    }
  }

  /** Nothing inside a string ever counts, whatever it contains. */
  lemma ScanQuoted(s: Scan, units: seq<Unit>)
    requires UnitsOk(units) && Between(s)
    ensures ScanAll(s, Quoted(units)) == s
  {
    var inside := s.(inString := true);
    ScanAppend(s, [QUOTE] + UnitsText(units), [QUOTE]);
    ScanAppend(s, [QUOTE], UnitsText(units));
    ScanOne(s, QUOTE);
    ScanUnits(inside, units);
    ScanOne(inside, QUOTE);
  }

  lemma ScanOne(s: Scan, b: byte)
    ensures ScanAll(s, [b]) == Turn(s, b)
  {
    assert [b][1..] == [];
    assert ScanAll(s, [b]) == ScanAll(Turn(s, b), []);
  }

  /** The scanner after a value nested `d` deep. */
  function After(s: Scan, d: nat): Scan {
    s.(peak := Max(s.peak, s.depth + d))
  }

  /** The scanner agrees with true nesting: over any well-formed JSON text it ends where it began, outside
      strings, having seen exactly the value's nesting depth. */
  lemma {:induction false} ScanFollowsNesting(s: Scan, j: Json)
    requires WellFormed(j) && Between(s)
    ensures ScanAll(s, Serialize(j)) == After(s, Depth(j))
    decreases j, 1
  {
    match j {
      case Literal(text) => ScanPlain(s, text);
      case Text(units) => ScanQuoted(s, units);
      case Array(blank, items) =>
        var inside := Turn(s, 91);
        ScanItems(inside, j, items, 0);
        ScanWrapped(s, 91, 93, blank, Items(j, items, 0), ItemsDepth(j, items, 0));
      case Object(blank, members) =>
        var inside := Turn(s, 123);
        ScanMembers(inside, j, members, 0);
        ScanWrapped(s, 123, 125, blank, Members(j, members, 0), MembersDepth(j, members, 0));
      case Padded(before, inner, after) =>
        ScanAppend(s, before + Serialize(inner), after);
        ScanAppend(s, before, Serialize(inner));
        ScanPlain(s, before);
        ScanFollowsNesting(s, inner);
        ScanPlain(After(s, Depth(inner)), after);
    }
  }

  lemma ScanWrapped(s: Scan, first: byte, last: byte, blank: seq<byte>, body: seq<byte>, d: nat)
    requires (first == 91 || first == 123) && (last == 93 || last == 125) && AllPlain(blank) && Between(s)
    requires ScanAll(Turn(s, first), body) == After(Turn(s, first), d)
    ensures ScanAll(s, [first] + blank + body + [last]) == After(s, 1 + d)
  {
    var inside := Turn(s, first);
    ScanAppend(s, [first] + blank + body, [last]);
    ScanAppend(s, [first] + blank, body);
    ScanAppend(s, [first], blank);
    ScanOne(s, first);
    ScanPlain(inside, blank);
    ScanOne(After(inside, d), last);
  }

  lemma {:induction false} ScanItems(s: Scan, parent: Json, items: seq<Json>, k: nat)
    requires k <= |items| && forall i :: 0 <= i < |items| ==> items[i] < parent && WellFormed(items[i])
    requires Between(s)
    ensures ScanAll(s, Items(parent, items, k)) == After(s, ItemsDepth(parent, items, k))
    decreases parent, 0, |items| - k
  {
    if k < |items| {
      var comma: seq<byte> := if k + 1 < |items| then [44] else [];
      ScanFollowsNesting(s, items[k]);
      ScanItems(After(s, Depth(items[k])), parent, items, k + 1);
      ScanListed(s, Serialize(items[k]), comma, Items(parent, items, k + 1), Depth(items[k]), ItemsDepth(parent, items, k + 1));
    }
  }

  lemma {:induction false} ScanMembers(s: Scan, parent: Json, members: seq<Member>, k: nat)
    requires k <= |members| && forall i :: 0 <= i < |members| ==>
               members[i].value < parent && AllPlain(members[i].before) && UnitsOk(members[i].name) && AllPlain(members[i].after) && WellFormed(members[i].value)
    requires Between(s)
    ensures ScanAll(s, Members(parent, members, k)) == After(s, MembersDepth(parent, members, k))
    decreases parent, 0, |members| - k
  {
    if k < |members| {
      var m := members[k];
      var comma: seq<byte> := if k + 1 < |members| then [44] else [];
      var head := m.before + Quoted(m.name) + m.after + [58] + Serialize(m.value);
      ScanName(s, m);
      ScanFollowsNesting(s, m.value);
      ScanAppend(s, m.before + Quoted(m.name) + m.after + [58], Serialize(m.value));
      ScanMembers(After(s, Depth(m.value)), parent, members, k + 1);
      ScanListed(s, head, comma, Members(parent, members, k + 1), Depth(m.value), MembersDepth(parent, members, k + 1));
    }
  }

  /** An element, its comma, and the elements after it. */
  lemma ScanListed(s: Scan, head: seq<byte>, comma: seq<byte>, rest: seq<byte>, d: nat, e: nat)
    requires Between(s) && AllPlain(comma)
    requires ScanAll(s, head) == After(s, d) && ScanAll(After(s, d), rest) == After(After(s, d), e)
    ensures ScanAll(s, head + comma + rest) == After(s, Max(d, e))
  {
    ScanAppend(s, head + comma, rest);
    ScanAppend(s, head, comma);
    ScanPlain(After(s, d), comma);
  }

  lemma ScanName(s: Scan, m: Member)
    requires AllPlain(m.before) && UnitsOk(m.name) && AllPlain(m.after) && Between(s)
    ensures ScanAll(s, m.before + Quoted(m.name) + m.after + [58]) == s
  {
    ScanAppend(s, m.before + Quoted(m.name) + m.after, [58]);
    ScanAppend(s, m.before + Quoted(m.name), m.after);
    ScanAppend(s, m.before, Quoted(m.name));
    ScanPlain(s, m.before);
    ScanQuoted(s, m.name);
    ScanPlain(s, m.after);
    ScanOne(s, 58);
  }

  lemma {:induction false} PeakGrows(s: Scan, text: seq<byte>)
    ensures s.peak <= ScanAll(s, text).peak
    decreases |text|
  {
    if text != [] { PeakGrows(Turn(s, text[0]), text[1..]); }
  }

  /** `_reject_excessive_nesting`: stops at the first byte that goes too deep. */
  method RejectExcessiveNesting(body: seq<byte>, maximum: nat) returns (ok: bool)
    ensures ok <==> ScanAll(Begin, body).peak <= maximum
  {
    var depth, inString, escaped := 0, false, false;
    ghost var peak := 0;
    var i := 0;
    while i < |body|
      invariant 0 <= i <= |body|
      invariant ScanAll(Begin, body) == ScanAll(Scan(depth, inString, escaped, peak), body[i..])
      invariant peak <= maximum
    {
      var b := body[i];
      ghost var before := Scan(depth, inString, escaped, peak);
      if inString {
        if escaped { escaped := false; }
        else if b == BACKSLASH { escaped := true; }
        else if b == QUOTE { inString := false; }
      } else if b == QUOTE {
        inString := true;
      } else if b == 91 || b == 123 {
        depth := depth + 1;
        peak := Max(peak, depth);
        if depth > maximum {
          PeakGrows(Turn(before, b), body[i..][1..]);
          return false;
        }
      } else if b == 93 || b == 125 {
        depth := depth - 1;
      }
      assert Turn(before, b) == Scan(depth, inString, escaped, peak);
      assert body[i..][1..] == body[i + 1..];
      i := i + 1;
    }
    ok := true;
  }

  /** For JSON text the check is exactly a bound on its nesting, and the scan ends at depth zero outside
      strings. */
  lemma NestingIsChecked(j: Json)
    requires WellFormed(j)
    ensures ScanAll(Begin, Serialize(j)) == Scan(0, false, false, Depth(j))
  {
    ScanFollowsNesting(Begin, j);
  }

  // ---- frames ----------------------------------------------------------------------------------

  datatype Error = UnexpectedEnd | TooLarge | Malformed

  /** struct.pack(">I", n) */
  function Header(n: nat): seq<byte>
    requires n < 0x1_0000_0000
  {
    [n / 0x100_0000, n / 0x1_0000 % 0x100, n / 0x100 % 0x100, n % 0x100]
  }

  function SizeOf(header: seq<byte>): nat
    requires |header| == 4
  {
    var (a: int, b: int, c: int, d: int) := (header[0], header[1], header[2], header[3]);
    a * 0x100_0000 + b * 0x1_0000 + c * 0x100 + d
  }

  lemma HeaderRoundTrip(n: nat)
    requires n < 0x1_0000_0000
    ensures SizeOf(Header(n)) == n
  {
    var q := n / 0x100;
    var p := q / 0x100;
    assert n / 0x1_0000 == p && n / 0x100_0000 == p / 0x100;
    assert n == q * 0x100 + n % 0x100 && q == p * 0x100 + q % 0x100 && p == p / 0x100 * 0x100 + p % 0x100;
  }

  /** `encode_frame`: no frame over the bound is ever written. */
  function EncodeFrame(value: Json): Result<seq<byte>, Error> {
    var body := Serialize(value);
    if |body| > MAX_FRAME_BYTES then Err(TooLarge) else Ok(Header(|body|) + body)
  }

  /** `json.loads` of the library: what text stands for which value. */
  type Parser = seq<byte> -> Option<Json>

  /** The parser reads this value back from what the encoder writes for it. */
  predicate ReadsBack(loads: Parser, value: Json) {
    loads(Serialize(value)) == Some(value)
  }

  /** `decode_json_object` */
  function DecodeBody(loads: Parser, body: seq<byte>): Result<Json, Error> {
    if ScanAll(Begin, body).peak > MAX_DEPTH then Err(Malformed)
    else
      match loads(body)
      case None => Err(Malformed)
      case Some(v) => if v.Object? then Ok(v) else Err(Malformed)
  }

  /** A stream that hands out its bytes in pieces of its own choosing. */
  class ByteStream {
    var data: seq<byte>
    var pieces: seq<nat>

    constructor (data: seq<byte>, pieces: seq<nat>)
      ensures this.data == data && this.pieces == pieces
    {
      this.data, this.pieces := data, pieces;
    }

    /** At least one byte unless the stream has ended, at most `limit`. */
    method Read(limit: nat) returns (chunk: seq<byte>)
      requires limit > 0
      modifies this
      ensures |chunk| <= limit && (chunk == [] <==> old(data) == [])
      ensures old(data) == chunk + data
    {
      var n := if pieces != [] && pieces[0] > 0 then pieces[0] else limit;
      if n > limit { n := limit; }
      if n > |data| { n := |data|; }
      if pieces != [] { pieces := pieces[1..]; }
      chunk := data[..n];
      data := data[n..];
    }

    method Write(bytes: seq<byte>)
      modifies this
      ensures data == old(data) + bytes && pieces == old(pieces)
    {
      data := data + bytes;
    }
  }

  /** `_read_exact`: the same bytes however the stream is cut, or an error at the end of the stream. */
  method ReadExact(stream: ByteStream, size: nat) returns (r: Result<seq<byte>, Error>)
    modifies stream
    ensures |old(stream.data)| >= size ==> r == Ok(old(stream.data)[..size]) && stream.data == old(stream.data)[size..]
    ensures |old(stream.data)| < size ==> r == Err(UnexpectedEnd) && stream.data == []
  {
    var got: seq<byte> := [];
    var remaining := size;
    while remaining > 0
      invariant remaining >= 0 && remaining + |got| == size
      invariant old(stream.data) == got + stream.data
      decreases remaining
    {
      var chunk := stream.Read(remaining);
      if chunk == [] {
        assert stream.data == [];
        return Err(UnexpectedEnd);
      }
      got := got + chunk;
      remaining := remaining - |chunk|;
    }
    assert old(stream.data)[..size] == got && old(stream.data)[size..] == stream.data;
    r := Ok(got);
  }

  /** What the next frame of a stream decodes to, and what is left. */
  function NextFrame(loads: Parser, data: seq<byte>): (Result<Json, Error>, seq<byte>) {
    if |data| < 4 then (Err(UnexpectedEnd), [])
    else
      var size := SizeOf(data[..4]);
      if size > MAX_FRAME_BYTES then (Err(TooLarge), data[4..])
      else if |data| < 4 + size then (Err(UnexpectedEnd), [])
      else (DecodeBody(loads, data[4..4 + size]), data[4 + size..])
  }

  /** A frame is read as `v` exactly if its four bytes announce at most 4 MiB, that many follow, they never nest deeper
      than 128, and they are the text of an object `v`; what is left begins after them. */
  lemma FrameIsRead(loads: Parser, data: seq<byte>, v: Json, rest: seq<byte>)
    ensures NextFrame(loads, data) == (Ok(v), rest) <==>
              && |data| >= 4
              && var n := data[0] as int * 16777216 + data[1] as int * 65536 + data[2] as int * 256 + data[3] as int;
                 && n <= 4194304 && |data| >= 4 + n && rest == data[4 + n..]
                 && ScanAll(Begin, data[4..4 + n]).peak <= 128 && loads(data[4..4 + n]) == Some(v) && v.Object?
  {
    hide ScanAll;
  }

  /** Nothing of an announced frame over 4 MiB is read. */
  lemma TooLargeIsRefused(loads: Parser, data: seq<byte>)
    requires |data| >= 4
    requires data[0] as int * 16777216 + data[1] as int * 65536 + data[2] as int * 256 + data[3] as int > 4194304
    ensures NextFrame(loads, data) == (Err(TooLarge), data[4..])
  {
    var header := data[..4];
    assert header[0] == data[0] && header[1] == data[1] && header[2] == data[2] && header[3] == data[3];
  }

  /** `read_frame` */
  method ReadFrame(loads: Parser, stream: ByteStream) returns (r: Result<Json, Error>)
    modifies stream
    ensures (r, stream.data) == NextFrame(loads, old(stream.data))
  {
    var header := ReadExact(stream, 4);
    if header.Err? {
      return Err(header.error);
    }
    var size := SizeOf(header.value);
    if size > MAX_FRAME_BYTES {
      return Err(TooLarge);
    }
    ghost var rest := stream.data;
    var body := ReadExact(stream, size);
    if body.Err? {
      return Err(body.error);
    }
    assert old(stream.data)[4..][..size] == old(stream.data)[4..4 + size];
    assert old(stream.data)[4..][size..] == old(stream.data)[4 + size..];
    var ok := RejectExcessiveNesting(body.value, MAX_DEPTH);
    if !ok {
      return Err(Malformed);
    }
    var v := loads(body.value);
    if v.None? || !v.value.Object? {
      return Err(Malformed);
    }
    r := Ok(v.value);
  }

  /** `write_frame` */
  method WriteFrame(stream: ByteStream, value: Json) returns (r: Result<(), Error>)
    modifies stream
    ensures r.Ok? <==> EncodeFrame(value).Ok?
    ensures r.Ok? <==> |Serialize(value)| <= 4194304
    ensures stream.data == old(stream.data) + (if r.Ok? then EncodeFrame(value).value else [])
  {
    var frame := EncodeFrame(value);
    if frame.Err? {
      assert stream.data == old(stream.data) + [];
      return Err(frame.error);
    }
    stream.Write(frame.value);
    r := Ok(());
  }

  /** A written frame is read back as the value it was, unless it is nested too deeply, which the writer does
      not check; either way the reader stands at the next frame. */
  lemma FrameRoundTrip(loads: Parser, value: Json, rest: seq<byte>)
    requires ReadsBack(loads, value) && WellFormed(value) && value.Object? && EncodeFrame(value).Ok?
    ensures NextFrame(loads, EncodeFrame(value).value + rest)
         == (if Depth(value) <= MAX_DEPTH then Ok(value) else Err(Malformed), rest)
  {
    var body := Serialize(value);
    var data := EncodeFrame(value).value + rest;
    HeaderRoundTrip(|body|);
    NestingIsChecked(value);
    assert data[..4] == Header(|body|);
    assert data[4..4 + |body|] == body;
    assert data[4 + |body|..] == rest;
  }

  /** Arrays in arrays, `n + 1` of them. */
  function Nested(n: nat): Json {
    Array([], if n == 0 then [] else [Nested(n - 1)])
  }

  /** An object holding them under an empty name. */
  function Envelope(n: nat): Json {
    Object([], [Member([], [], [], Nested(n))])
  }

  lemma {:induction false} NestedIsDeep(n: nat)
    ensures WellFormed(Nested(n)) && Depth(Nested(n)) == n + 1 && |Serialize(Nested(n))| == 2 * n + 2
    decreases n
  {
    if n > 0 {
      NestedIsDeep(n - 1);
      var j := Nested(n);
      assert Items(j, j.items, 0) == Serialize(Nested(n - 1)) + [] + Items(j, j.items, 1);
      assert ItemsDepth(j, j.items, 0) == Max(n, ItemsDepth(j, j.items, 1));
    }
  }

  /** The writer sends what the reader refuses: from the 129th level on, within the frame size, a value is encoded,
      its own parser would read it back, and the frame is still malformed to the reader. */
  lemma DeepValueIsSentAndRefused(loads: Parser, n: nat, rest: seq<byte>)
    requires MAX_DEPTH <= n + 1 && 2 * n + 7 <= MAX_FRAME_BYTES && ReadsBack(loads, Envelope(n))
    ensures WellFormed(Envelope(n)) && EncodeFrame(Envelope(n)).Ok?
    ensures NextFrame(loads, EncodeFrame(Envelope(n)).value + rest) == (Err(Malformed), rest)
  {
    hide NextFrame, Nested;
    NestedIsDeep(n);
    var j := Envelope(n);
    assert MembersDepth(j, j.members, 0) == Max(n + 1, MembersDepth(j, j.members, 1));
    assert Members(j, j.members, 0) == [] + Quoted([]) + [] + [58] + Serialize(Nested(n)) + [] + Members(j, j.members, 1);
    assert |Serialize(j)| == 2 * n + 7;
    FrameRoundTrip(loads, j, rest);
  }

  function Frames(values: seq<Json>): seq<byte>
    requires forall k :: 0 <= k < |values| ==> EncodeFrame(values[k]).Ok?
  {
    if values == [] then [] else EncodeFrame(values[0]).value + Frames(values[1..])
  }

  lemma NextOfMany(loads: Parser, values: seq<Json>, k: nat)
    requires k < |values|
    requires forall i :: 0 <= i < |values| ==> ReadsBack(loads, values[i]) && WellFormed(values[i]) && values[i].Object? && EncodeFrame(values[i]).Ok?
    ensures NextFrame(loads, Frames(values[k..]))
         == (if Depth(values[k]) <= MAX_DEPTH then Ok(values[k]) else Err(Malformed), Frames(values[k + 1..]))
  {
    hide NextFrame, EncodeFrame, WellFormed, Depth;
    FrameRoundTrip(loads, values[k], Frames(values[k + 1..]));
    assert values[k..][1..] == values[k + 1..];
  }

  /** A concatenation of frames is read back value by value, in order, for every way the stream is cut. */
  method ReadFrames(loads: Parser, stream: ByteStream, values: seq<Json>) returns (read: seq<Json>)
    requires forall k :: 0 <= k < |values| ==> ReadsBack(loads, values[k]) && WellFormed(values[k]) && values[k].Object? && EncodeFrame(values[k]).Ok?
    requires forall k :: 0 <= k < |values| ==> Depth(values[k]) <= MAX_DEPTH
    requires stream.data == Frames(values)
    modifies stream
    ensures read == values && stream.data == []
  {
    hide NextFrame, EncodeFrame, WellFormed, Depth, ReadsBack;
    read := [];
    assert values[0..] == values;
    while |read| < |values|
      invariant |read| <= |values| && read == values[..|read|]
      invariant stream.data == Frames(values[|read|..])
      decreases |values| - |read|
    {
      NextOfMany(loads, values, |read|);
      var r := ReadFrame(loads, stream);
      read := read + [r.value];
    }
    assert values[|values|..] == [];
  }
}
