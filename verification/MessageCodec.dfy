/** The Pomelo wire format: messages with a route dictionary, and packets with a length header. */
module MessageCodec {
  import opened Sets

  type Byte = b: int | 0 <= b < 256
  type Code = c: int | 0 <= c < 0x1_0000
  type Word = w: int | 0 <= w < 0x1_0000_0000_0000_0000
  type Bytes = seq<Byte>

  const WORD := 0x1_0000_0000_0000_0000
  const REQUEST: Byte := 0
  const NOTIFY: Byte := 1
  const RESPONSE: Byte := 2
  const PUSH: Byte := 3

  datatype Message = Message(kind: Byte, id: Word, route: Bytes, data: Bytes, compressed: bool, error: bool)

  datatype Problem = InvalidType | InvalidMessage | UnknownRoute | BadData | BadHeader | BadKind | TooBig

  /** `Panic` stands for an index or slice out of range. */
  datatype Result<+T> = Ok(value: T) | Err(problem: Problem) | Panic

  // ---------- The route dictionary ----------

  datatype Dictionary = Dictionary(routes: map<Bytes, Code>, codes: map<Code, Bytes>)

  /** The two tables are inverse to each other. */
  ghost predicate Inverse(d: Dictionary) {
    && (forall r :: r in d.routes ==> d.routes[r] in d.codes && d.codes[d.routes[r]] == r)
    && (forall c :: c in d.codes ==> d.codes[c] in d.routes && d.routes[d.codes[c]] == c)
  }

  ghost predicate Extends(d: Dictionary, e: Dictionary) {
    && (forall r :: r in d.routes ==> r in e.routes && e.routes[r] == d.routes[r])
    && (forall c :: c in d.codes ==> c in e.codes && e.codes[c] == d.codes[c])
  }

  /** The entries are added in this order, up to the first whose route or code is taken. */
  function AddAlong(d: Dictionary, trim: Bytes -> Bytes, dict: map<Bytes, Code>, order: seq<Bytes>): Dictionary
    requires forall i :: 0 <= i < |order| ==> order[i] in dict
    decreases |order|
  {
    if order == [] then d
    else
      var r, c := trim(order[0]), dict[order[0]];
      if r in d.routes || c in d.codes then d
      else AddAlong(Dictionary(d.routes[r := c], d.codes[c := r]), trim, dict, order[1..])
  }

  /** Whatever the order, the tables stay inverse to each other and no entry is lost or changed. */
  lemma {:induction false} AddKeepsInverse(d: Dictionary, trim: Bytes -> Bytes, dict: map<Bytes, Code>,
                                           order: seq<Bytes>)
    requires Inverse(d) && forall i :: 0 <= i < |order| ==> order[i] in dict
    ensures Inverse(AddAlong(d, trim, dict, order)) && Extends(d, AddAlong(d, trim, dict, order))
    decreases |order|
  {
    if order != [] {
      var r, c := trim(order[0]), dict[order[0]];
      if r !in d.routes && c !in d.codes {
        var e := Dictionary(d.routes[r := c], d.codes[c := r]);
        assert Inverse(e) && Extends(d, e);
        AddKeepsInverse(e, trim, dict, order[1..]);
      }
    }
  }

  /** None of the entries clashes with the dictionary or with an earlier one. */
  ghost predicate Clean(d: Dictionary, trim: Bytes -> Bytes, dict: map<Bytes, Code>, order: seq<Bytes>)
    requires forall i :: 0 <= i < |order| ==> order[i] in dict
    decreases |order|
  {
    order == [] ||
    var r, c := trim(order[0]), dict[order[0]];
    r !in d.routes && c !in d.codes && Clean(Dictionary(d.routes[r := c], d.codes[c := r]), trim, dict, order[1..])
  }

  lemma {:induction false} AddInTwo(d: Dictionary, trim: Bytes -> Bytes, dict: map<Bytes, Code>, first: seq<Bytes>,
                                    rest: seq<Bytes>)
    requires (forall i :: 0 <= i < |first| ==> first[i] in dict) && (forall i :: 0 <= i < |rest| ==> rest[i] in dict)
    requires Clean(d, trim, dict, first)
    ensures AddAlong(d, trim, dict, first + rest) == AddAlong(AddAlong(d, trim, dict, first), trim, dict, rest)
    ensures Clean(d, trim, dict, first + rest) <==> Clean(AddAlong(d, trim, dict, first), trim, dict, rest)
    decreases |first|
  {
    if first == [] {
      assert first + rest == rest;
    } else {
      var r, c := trim(first[0]), dict[first[0]];
      assert (first + rest)[1..] == first[1..] + rest;
      AddInTwo(Dictionary(d.routes[r := c], d.codes[c := r]), trim, dict, first[1..], rest);
    }
  }

  lemma {:induction false} SomeOrder(left: set<Bytes>) returns (order: seq<Bytes>)
    ensures forall r :: r in order <==> r in left
    ensures forall i, j :: 0 <= i < j < |order| ==> order[i] != order[j]
    decreases |left|
  {
    order := [];
    if left != {} {
      var r := Pick(left);
      var rest := SomeOrder(left - {r});
      order := [r] + rest;
    }
  }

  /** The loop has added the entries in `order`; those in `left` are still to come. */
  ghost predicate Added(was: Dictionary, now: Dictionary, trim: Bytes -> Bytes, dict: map<Bytes, Code>,
                        order: seq<Bytes>, left: set<Bytes>) {
    && left <= dict.Keys && (forall i :: 0 <= i < |order| ==> order[i] in dict && order[i] !in left)
    && (forall r :: r in dict && r !in left ==> r in order)
    && (forall i, j :: 0 <= i < j < |order| ==> order[i] != order[j])
    && Clean(was, trim, dict, order) && now == AddAlong(was, trim, dict, order)
  }

  lemma AddStep(was: Dictionary, now: Dictionary, trim: Bytes -> Bytes, dict: map<Bytes, Code>, order: seq<Bytes>,
                left: set<Bytes>, route: Bytes)
    requires Added(was, now, trim, dict, order, left) && route in left
    requires trim(route) !in now.routes && dict[route] !in now.codes
    ensures Added(was, Dictionary(now.routes[trim(route) := dict[route]], now.codes[dict[route] := trim(route)]),
                  trim, dict, order + [route], left - {route})
  {
    AddInTwo(was, trim, dict, order, [route]);
    var e := Dictionary(now.routes[trim(route) := dict[route]], now.codes[dict[route] := trim(route)]);
    assert [route][1..] == [];
    assert AddAlong(now, trim, dict, [route]) == AddAlong(e, trim, dict, []);
    forall r | r in dict && r !in left - {route} ensures r in order + [route] {
      assert r == route || r in order;
    }
  }

  /** The loop stops at `route`; the entries left come after it in the order. */
  lemma AddStops(was: Dictionary, now: Dictionary, trim: Bytes -> Bytes, dict: map<Bytes, Code>, order: seq<Bytes>,
                 left: set<Bytes>, route: Bytes)
    returns (all: seq<Bytes>)
    requires Added(was, now, trim, dict, order, left) && route in left
    requires trim(route) in now.routes || dict[route] in now.codes
    ensures Visits(all, dict) && now == AddAlong(was, trim, dict, all)
  {
    var rest := SomeOrder(left - {route});
    var tail := [route] + rest;
    assert forall i :: 0 <= i < |rest| ==> rest[i] in rest;
    assert forall i :: 0 <= i < |tail| ==> tail[i] in left;
    AddInTwo(was, trim, dict, order, tail);
    all := order + tail;
    forall r | r in dict ensures r in all {
      assert r in order || r == route || r in rest;
    }
  }

  ghost predicate Visits(order: seq<Bytes>, dict: map<Bytes, Code>) {
    && (forall i :: 0 <= i < |order| ==> order[i] in dict)
    && (forall i, j :: 0 <= i < j < |order| ==> order[i] != order[j])
    && (forall r :: r in dict ==> r in order)
  }

  /** The dictionaries after each of a series of calls, every call visiting its map in some order. */
  ghost predicate IsSeries(ds: seq<Dictionary>, trim: Bytes -> Bytes, calls: seq<(map<Bytes, Code>, seq<Bytes>)>) {
    && |ds| == |calls| + 1 && ds[0] == Dictionary(map[], map[])
    && forall i {:trigger calls[i]} :: 0 <= i < |calls| ==>
         Visits(calls[i].1, calls[i].0) && ds[i + 1] == AddAlong(ds[i], trim, calls[i].0, calls[i].1)
  }

  lemma {:induction false} SeriesInverse(ds: seq<Dictionary>, trim: Bytes -> Bytes,
                                         calls: seq<(map<Bytes, Code>, seq<Bytes>)>, k: nat)
    requires IsSeries(ds, trim, calls) && k < |ds|
    ensures Inverse(ds[k])
  {
    if k > 0 {
      SeriesInverse(ds, trim, calls, k - 1);
      assert Visits(calls[k - 1].1, calls[k - 1].0);
      AddKeepsInverse(ds[k - 1], trim, calls[k - 1].0, calls[k - 1].1);
    }
  }

  // ---------- Message ids ----------

  /** Seven bits to a byte, the lowest first; all bytes but the last have the top bit set. */
  function Varint(n: nat): Bytes {
    if n < 128 then [n] else [n % 128 + 128] + Varint(n / 128)
  }

  function Pow128(k: nat): nat {
    if k == 0 then 1 else Pow128(k - 1) * 128
  }

  /**
   The id read from position i on, k bytes into the id, and the offset after it; if the bytes run out, the
   offset stays behind the flag.
   */
  function ScanId(body: Bytes, i: nat, k: nat, id: Word): (Word, nat)
    decreases |body| - i
  {
    if i >= |body| then (id, 1)
    else
      var b := body[i];
      var next := (id + (b % 128) * Pow128(k)) % WORD;
      if b < 128 then (next, i + 1) else ScanId(body, i + 1, k + 1, next)
  }

  lemma Split128(n: nat, k: nat)
    ensures n * Pow128(k) == (n / 128) * Pow128(k + 1) + (n % 128) * Pow128(k)
  {
    var q, r, p := n / 128, n % 128, Pow128(k);
    assert n == q * 128 + r;
    assert (q * 128 + r) * p == q * 128 * p + r * p;
    assert q * 128 * p == q * (p * 128);
  }

  /** The digit of one byte and what is left after it make up the id; nothing overflows. */
  lemma DigitAdds(id: Word, n: nat, k: nat)
    requires id + n * Pow128(k) < WORD
    ensures var next := (id + (n % 128) * Pow128(k)) % WORD;
            && next == id + (n % 128) * Pow128(k)
            && next + (n / 128) * Pow128(k + 1) == id + n * Pow128(k)
  {
    Split128(n, k);
    assert (n / 128) * Pow128(k + 1) >= 0 && (n % 128) * Pow128(k) >= 0;
    Small(id + (n % 128) * Pow128(k));
  }

  lemma Small(x: int)
    requires 0 <= x < WORD
    ensures x % WORD == x
  {
  }

  lemma FirstByte(n: nat)
    ensures Varint(n)[0] % 128 == n % 128 && (Varint(n)[0] < 128 <==> n < 128)
    ensures n < 128 ==> |Varint(n)| == 1 && n % 128 == n && n / 128 == 0
    ensures n >= 128 ==> Varint(n)[1..] == Varint(n / 128)
  {
  }

  /** Reading back what was written yields the id, for every 64-bit id. */
  lemma {:induction false} ScanReadsVarint(body: Bytes, i: nat, k: nat, id: Word, n: nat)
    requires i + |Varint(n)| <= |body| && body[i..i + |Varint(n)|] == Varint(n)
    requires id + n * Pow128(k) < WORD
    ensures ScanId(body, i, k, id) == (id + n * Pow128(k), i + |Varint(n)|)
    decreases n
  {
    var v := Varint(n);
    assert body[i] == body[i..i + |v|][0] == v[0];
    DigitAdds(id, n, k);
    FirstByte(n);
    if n >= 128 {
      assert body[i + 1..i + |v|] == body[i..i + |v|][1..];
      ScanReadsVarint(body, i + 1, k + 1, id + (n % 128) * Pow128(k), n / 128);
    }
  }

  // ---------- Messages ----------

  predicate HasId(kind: Byte) {
    kind == REQUEST || kind == RESPONSE
  }

  predicate Routable(kind: Byte) {
    kind == REQUEST || kind == NOTIFY || kind == PUSH
  }

  /** The route as a code of two bytes if the dictionary has it, else its length and its bytes. */
  function RoutePart(d: Dictionary, route: Bytes): Bytes {
    if route in d.routes then [d.routes[route] / 256, d.routes[route] % 256] else [|route| % 256] + route
  }

  function Encode(d: Dictionary, m: Message): Result<Bytes> {
    if m.kind > PUSH then Err(InvalidType)
    else Ok([m.kind * 2 + if m.route in d.routes then 1 else 0]
            + (if HasId(m.kind) then Varint(m.id) else [])
            + (if Routable(m.kind) then RoutePart(d, m.route) else [])
            + m.data)
  }

  function Pair(hi: int, lo: int): int {
    hi * 256 + lo
  }

  /** The route from `offset` on.  A slice may reach into `spare`, the room behind the body in its buffer. */
  function ReadRoute(d: Dictionary, body: Bytes, spare: Bytes, offset: nat, compressed: bool): Result<(Bytes, nat)> {
    var room := body + spare;
    if compressed then
      if offset + 2 > |room| then Panic
      else
        var code := Pair(room[offset], room[offset + 1]);
        if code in d.codes then Ok((d.codes[code], offset + 2)) else Err(UnknownRoute)
    else if offset >= |body| || offset + 1 + body[offset] > |room| then Panic
    else Ok((room[offset + 1..offset + 1 + body[offset]], offset + 1 + body[offset]))
  }

  function ReadData(body: Bytes, offset: nat, inflate: Bytes -> Result<Bytes>): Result<Bytes>
    requires body != []
  {
    if offset > |body| then Err(InvalidMessage)
    else if (body[0] / 16) % 2 == 1 then inflate(body[offset..])
    else Ok(body[offset..])
  }

  function Decode(d: Dictionary, body: Bytes, spare: Bytes, inflate: Bytes -> Result<Bytes>): Result<Message> {
    if body == [] then Panic
    else
      var flag := body[0];
      var kind := (flag / 2) % 8;
      if kind > PUSH then Err(InvalidType)
      else
        var (id, offset) := if HasId(kind) then ScanId(body, 1, 0, 0) else (0, 1);
        var compressed := Routable(kind) && flag % 2 == 1;
        match if Routable(kind) then ReadRoute(d, body, spare, offset, compressed) else Ok(([], offset))
        case Err(p) => Err(p)
        case Panic => Panic
        case Ok((route, after)) =>
          match ReadData(body, after, inflate)
          case Err(p) => Err(p)
          case Panic => Panic
          case Ok(data) => Ok(Message(kind, id, route, data, compressed, (flag / 32) % 2 == 1))
  }

  /** What a receiver gets: a route of 256 bytes or more that has no code loses its end to the data. */
  function Received(d: Dictionary, m: Message): Message {
    var keep := if Routable(m.kind) && m.route !in d.routes then |m.route| % 256 else |m.route|;
    Message(m.kind,
            if HasId(m.kind) then m.id else 0,
            if Routable(m.kind) then m.route[..keep] else [],
            (if Routable(m.kind) then m.route[keep..] else []) + m.data,
            Routable(m.kind) && m.route in d.routes,
            false)
  }

  lemma ReadsCode(d: Dictionary, route: Bytes, before: Bytes, data: Bytes, spare: Bytes)
    requires Inverse(d) && route in d.routes
    ensures ReadRoute(d, before + RoutePart(d, route) + data, spare, |before|, true) == Ok((route, |before| + 2))
  {
    var room := before + RoutePart(d, route) + data + spare;
    var code := d.routes[route];
    assert room[|before|] == code / 256 && room[|before| + 1] == code % 256;
  }

  lemma ReadsPlain(d: Dictionary, before: Bytes, keep: Byte, kept: Bytes, rest: Bytes, spare: Bytes)
    requires |kept| == keep
    ensures ReadRoute(d, before + [keep] + kept + rest, spare, |before|, false) == Ok((kept, |before| + 1 + keep))
  {
    var body := before + [keep] + kept + rest;
    assert body[|before|] == keep;
    assert (body + spare)[|before| + 1..|before| + 1 + keep] == kept;
  }

  /** The flag carries the kind and whether the route is a code; no other bit is set. */
  lemma FlagBits(kind: int, bit: int)
    requires 0 <= kind <= 3 && 0 <= bit <= 1
    ensures var flag := kind * 2 + bit;
            (flag / 2) % 8 == kind && flag % 2 == bit && (flag / 16) % 2 == 0 && (flag / 32) % 2 == 0
  {
  }

  lemma ReadsId(m: Message, body: Bytes, flag: Byte, rest: Bytes)
    requires body == [flag] + (if HasId(m.kind) then Varint(m.id) else []) + rest
    ensures (if HasId(m.kind) then ScanId(body, 1, 0, 0) else (0, 1))
            == (if HasId(m.kind) then m.id else 0, |body| - |rest|)
  {
    if HasId(m.kind) {
      var id := Varint(m.id);
      assert body[1..1 + |id|] == id;
      assert Pow128(0) == 1;
      ScanReadsVarint(body, 1, 0, 0, m.id);
    }
  }

  /** The parts of a body put together. */
  lemma DecodesParts(d: Dictionary, body: Bytes, spare: Bytes, inflate: Bytes -> Result<Bytes>, kind: Byte, id: Word,
                     offset: nat,
                     compressed: bool, route: Bytes, after: nat)
    requires body != [] && (body[0] / 2) % 8 == kind <= PUSH && (body[0] / 16) % 2 == 0 && (body[0] / 32) % 2 == 0
    requires (if HasId(kind) then ScanId(body, 1, 0, 0) else (0, 1)) == (id, offset)
    requires compressed == (Routable(kind) && body[0] % 2 == 1)
    requires (if Routable(kind) then ReadRoute(d, body, spare, offset, compressed) else Ok(([],
          offset))) == Ok((route, after))
    requires after <= |body|
    ensures Decode(d, body, spare, inflate) == Ok(Message(kind, id, route, body[after..], compressed, false))
  {
  }

  /** The route that is read, and what follows it. */
  lemma ReadsRest(d: Dictionary, m: Message, body: Bytes, before: Bytes, spare: Bytes)
    requires Inverse(d) && body == before + (if Routable(m.kind) then RoutePart(d, m.route) else []) + m.data
    ensures var r := Received(d, m);
            && |r.data| <= |body| && body[|body| - |r.data|..] == r.data
            && (if Routable(m.kind) then ReadRoute(d, body, spare, |before|, r.compressed) else Ok(([], |before|)))
               == Ok((r.route, |body| - |r.data|))
  {
    if !Routable(m.kind) {
      assert Received(d, m).data == m.data;
    } else if m.route in d.routes {
      ReadsCode(d, m.route, before, m.data, spare);
      assert m.route[..|m.route|] == m.route && m.route[|m.route|..] + m.data == m.data;
    } else {
      ReadsLong(d, m.route, before, m.data, spare);
    }
  }

  lemma ReadsLong(d: Dictionary, route: Bytes, before: Bytes, data: Bytes, spare: Bytes)
    requires route !in d.routes
    ensures var body, keep := before + RoutePart(d, route) + data, |route| % 256;
            && |body| >= |route[keep..] + data| && body[|body| - |route[keep..] + data|..] == route[keep..] + data
            && ReadRoute(d, body, spare, |before|, false) == Ok((route[..keep], |body| - |route[keep..] + data|))
  {
    var keep: Byte := |route| % 256;
    var kept, lost := route[..keep], route[keep..];
    assert route == kept + lost;
    assert before + RoutePart(d, route) + data == before + [keep] + kept + (lost + data);
    ReadsPlain(d, before, keep, kept, lost + data, spare);
  }

  /** The encoded message: a flag, the id and the rest. */
  lemma BodyShape(d: Dictionary, m: Message, body: Bytes)
    requires Encode(d, m) == Ok(body)
    ensures m.kind <= PUSH && body != [] && body[0] == m.kind * 2 + (if m.route in d.routes then 1 else 0)
    ensures var id := if HasId(m.kind) then Varint(m.id) else [];
            var route := if Routable(m.kind) then RoutePart(d, m.route) else [];
            body == [body[0]] + id + (route + m.data) == ([body[0]] + id) + route + m.data
  {
    var flag := m.kind * 2 + if m.route in d.routes then 1 else 0;
    var id := if HasId(m.kind) then Varint(m.id) else [];
    var route := if Routable(m.kind) then RoutePart(d, m.route) else [];
    Regroup([flag], id, route, m.data);
  }

  lemma Regroup(a: Bytes, b: Bytes, c: Bytes, e: Bytes)
    ensures a + b + c + e == a + b + (c + e)
    ensures a != [] ==> (a + b + c + e)[0] == a[0]
  {
  }

  lemma DecodesHead(d: Dictionary, m: Message, body: Bytes)
    requires Encode(d, m) == Ok(body)
    ensures body != [] && (body[0] / 2) % 8 == m.kind <= PUSH && (body[0] / 16) % 2 == 0 && (body[0] / 32) % 2 == 0
    ensures body[0] % 2 == 1 <==> m.route in d.routes
    ensures var id := if HasId(m.kind) then Varint(m.id) else [];
            (if HasId(m.kind) then ScanId(body, 1, 0, 0) else (0, 1)) == (if HasId(m.kind) then m.id else 0, 1 + |id|)
  {
    BodyShape(d, m, body);
    FlagBits(m.kind, if m.route in d.routes then 1 else 0);
    ReadsId(m, body, body[0], (if Routable(m.kind) then RoutePart(d, m.route) else []) + m.data);
  }

  /** Decoding an encoded message gives back its kind, id, route and data, as far as the format carries them. */
  lemma RoundTrip(d: Dictionary, m: Message, body: Bytes, spare: Bytes, inflate: Bytes -> Result<Bytes>)
    requires Inverse(d) && Encode(d, m) == Ok(body)
    ensures Decode(d, body, spare, inflate) == Ok(Received(d, m))
  {
    var id := if HasId(m.kind) then Varint(m.id) else [];
    DecodesHead(d, m, body);
    BodyShape(d, m, body);
    ReadsRest(d, m, body, [body[0]] + id, spare);
    var r := Received(d, m);
    DecodesParts(d, body, spare, inflate, m.kind, r.id, 1 + |id|, r.compressed, r.route, |body| - |r.data|);
  }

  /** The route arrives whole exactly if it has a code or at most 255 bytes. */
  lemma RouteArrivesIff(d: Dictionary, m: Message, body: Bytes, spare: Bytes, inflate: Bytes -> Result<Bytes>)
    requires Inverse(d) && Encode(d, m) == Ok(body) && Routable(m.kind)
    ensures Decode(d, body, spare, inflate).Ok?
    ensures var r := Decode(d, body, spare, inflate).value;
            r.route == m.route && r.data == m.data <==> m.route in d.routes || |m.route| <= 255
  {
    RoundTrip(d, m, body, spare, inflate);
    ReceivedWhole(d, m);
  }

  lemma ReceivedWhole(d: Dictionary, m: Message)
    requires Routable(m.kind)
    ensures var r := Received(d, m);
            r.route == m.route && r.data == m.data <==> m.route in d.routes || |m.route| <= 255
  {
    if m.route in d.routes || |m.route| <= 255 {
      assert m.route[..|m.route|] == m.route && m.route[|m.route|..] + m.data == m.data;
    } else {
      assert |Received(d, m).route| < |m.route|;
    }
  }

  // ---------- Packets ----------

  const HEADER := 4
  const MAX_PACKET := 0x100_0000

  function IntToBytes(n: nat): Bytes {
    [(n / 0x1_0000) % 256, (n / 256) % 256, n % 256]
  }

  function BytesToInt(b: Bytes): nat {
    if b == [] then 0 else BytesToInt(b[..|b| - 1]) * 256 + b[|b| - 1]
  }

  function EncodePacket(kind: Byte, body: Bytes): Result<Bytes> {
    if kind == 0 then Err(BadKind)
    else if |body| > MAX_PACKET then Err(TooBig)
    else Ok([kind] + IntToBytes(|body|) + body)
  }

  function DecodeHeader(payload: Bytes): Result<(Byte, nat, Bytes)> {
    if |payload| < HEADER then Err(BadHeader) else Ok((payload[0], BytesToInt(payload[1..HEADER]), payload[HEADER..]))
  }

  lemma LengthRoundTrip(n: nat)
    requires n <= MAX_PACKET
    ensures BytesToInt(IntToBytes(n)) == if n == MAX_PACKET then 0 else n
  {
    var b := IntToBytes(n);
    assert b[..2] == [b[0], b[1]] && b[..2][..1] == [b[0]] && [b[0]][..0] == [];
    assert BytesToInt(b) == (BytesToInt([b[0]]) * 256 + b[1]) * 256 + b[2];
    assert BytesToInt([b[0]]) == BytesToInt([]) * 256 + b[0];
  }

  /** Kind and body arrive; the length in the header is right exactly if the body is shorter than 2^24 bytes. */
  lemma PacketRoundTrip(kind: Byte, body: Bytes)
    requires kind != 0 && |body| <= MAX_PACKET
    ensures EncodePacket(kind, body).Ok? && DecodeHeader(EncodePacket(kind, body).value).Ok?
    ensures var (k, len, rest) := DecodeHeader(EncodePacket(kind, body).value).value;
            k == kind && rest == body && (len == |body| <==> |body| < MAX_PACKET)
  {
    var payload := EncodePacket(kind, body).value;
    assert payload[1..HEADER] == IntToBytes(|body|);
    assert payload[HEADER..] == body;
    LengthRoundTrip(|body|);
  }

  // ---------- The methods ----------

  method AccumulateBytes(b: Bytes) returns (result: nat)
    ensures result == BytesToInt(b)
  {
    result := 0;
    for i := 0 to |b|
      invariant result == BytesToInt(b[..i])
    {
      assert b[..i + 1][..i] == b[..i];
      result := result * 256 + b[i];
    }
    assert b[..|b|] == b;
  }

  method BuildPacket(kind: Byte, body: Bytes) returns (r: Result<Bytes>)
    ensures r == EncodePacket(kind, body)
  {
    if kind == 0 {
      return Err(BadKind);
    }
    if |body| > MAX_PACKET {
      return Err(TooBig);
    }
    var buf := new Byte[|body| + HEADER](_ => 0);
    buf[0] := kind;
    var len := IntToBytes(|body|);
    buf[1], buf[2], buf[3] := len[0], len[1], len[2];
    for i := 0 to |body|
      invariant buf[..HEADER] == [kind] + len && buf[HEADER..HEADER + i] == body[..i]
    {
      buf[HEADER + i] := body[i];
    }
    assert body[..|body|] == body;
    assert buf[..] == buf[..HEADER] + buf[HEADER..HEADER + |body|];
    return Ok(buf[..]);
  }

  method AppendId(buf: Bytes, id: Word) returns (r: Bytes)
    ensures r == buf + Varint(id)
  {
    var n: nat := id;
    r := buf;
    while n >= 128
      invariant r + Varint(n) == buf + Varint(id)
    {
      assert r + ([n % 128 + 128] + Varint(n / 128)) == r + [n % 128 + 128] + Varint(n / 128);
      r := r + [n % 128 + 128];
      n := n / 128;
    }
    r := r + [n];
  }

  class Protocol {
    var routes: map<Bytes, Code>
    var codes: map<Code, Bytes>

    ghost function View(): Dictionary
      reads this
    {
      Dictionary(routes, codes)
    }

    constructor ()
      ensures Inverse(View()) && View() == Dictionary(map[], map[])
    {
      routes, codes := map[], map[];
    }

    /** Some order of the map explains the result. */
    method SetDictionary(trim: Bytes -> Bytes, dict: map<Bytes, Code>) returns (ghost order: seq<Bytes>)
      requires Inverse(View())
      modifies this
      ensures Visits(order, dict) && View() == AddAlong(old(View()), trim, dict, order)
      ensures Inverse(View()) && Extends(old(View()), View())
    {
      order := [];
      var left := dict.Keys;
      while left != {}
        invariant Added(old(View()), View(), trim, dict, order, left)
        decreases |left|
      {
        var route := Visit(left);
        var r, code := trim(route), dict[route];
        if r in routes || code in codes {
          order := AddStops(old(View()), View(), trim, dict, order, left, route);
          AddKeepsInverse(old(View()), trim, dict, order);
          return;
        }
        AddStep(old(View()), View(), trim, dict, order, left, route);
        routes, codes := routes[r := code], codes[code := r];
        order, left := order + [route], left - {route};
      }
      AddKeepsInverse(old(View()), trim, dict, order);
    }

    method MessageEncode(m: Message) returns (r: Result<Bytes>)
      ensures r == Encode(View(), m)
    {
      if m.kind > PUSH {
        return Err(InvalidType);
      }
      var compressed := m.route in routes;
      var flag := m.kind * 2;
      if compressed {
        flag := flag + 1;
      }
      var buf: Bytes := [flag];
      if HasId(m.kind) {
        buf := AppendId(buf, m.id);
      }
      if Routable(m.kind) {
        if compressed {
          var code := routes[m.route];
          buf := buf + [code / 256];
          buf := buf + [code % 256];
        } else {
          buf := buf + [|m.route| % 256];
          buf := buf + m.route;
        }
      }
      buf := buf + m.data;
      ghost var id := if HasId(m.kind) then Varint(m.id) else [];
      ghost var route := if Routable(m.kind) then RoutePart(View(), m.route) else [];
      assert buf == [flag] + id + route + m.data;
      return Ok(buf);
    }

    method FindRoute(body: Bytes, spare: Bytes, start: nat, compressed: bool) returns (r: Result<(Bytes, nat)>)
      ensures r == ReadRoute(View(), body, spare, start, compressed)
    {
      var room, offset := body + spare, start;
      if compressed {
        if offset + 2 > |room| {
          return Panic;
        }
        var code := Pair(room[offset], room[offset + 1]);
        if code !in codes {
          return Err(UnknownRoute);
        }
        return Ok((codes[code], offset + 2));
      }
      if offset >= |body| {
        return Panic;
      }
      var rl := body[offset];
      offset := offset + 1;
      if offset + rl > |room| {
        return Panic;
      }
      return Ok((room[offset..offset + rl], offset + rl));
    }

    method MessageDecode(body: Bytes, spare: Bytes, inflate: Bytes -> Result<Bytes>) returns (r: Result<Message>)
      ensures r == Decode(View(), body, spare, inflate)
    {
      if body == [] {
        return Panic;
      }
      var flag := body[0];
      var kind: Byte := (flag / 2) % 8;
      if kind > PUSH {
        return Err(InvalidType);
      }
      var offset, id := 1, 0;
      if HasId(kind) {
        id, offset := ReadId(body);
      }
      var error := (flag / 32) % 2 == 1;
      var compressed, route := false, [];
      if Routable(kind) {
        compressed := flag % 2 == 1;
        var found := FindRoute(body, spare, offset, compressed);
        match found
        case Ok((name, after)) => route, offset := name, after;
        case Err(p) => return Err(p);
        case Panic => return Panic;
      }
      if offset > |body| {
        return Err(InvalidMessage);
      }
      var data := body[offset..];
      if (flag / 16) % 2 == 1 {
        match inflate(data)
        case Ok(inflated) => data := inflated;
        case Err(p) => return Err(p);
        case Panic => return Panic;
      }
      return Ok(Message(kind, id, route, data, compressed, error));
    }
  }

  method ReadId(body: Bytes) returns (id: Word, offset: nat)
    ensures (id, offset) == ScanId(body, 1, 0, 0)
  {
    id, offset := 0, 1;
    var i, place: nat := 1, 1;
    while i < |body|
      invariant 1 <= i && place == Pow128(i - 1) && offset == 1
      invariant ScanId(body, i, i - 1, id) == ScanId(body, 1, 0, 0)
    {
      var b: int := body[i];
      id := (id + (b % 128) * place) % WORD;
      if b < 128 {
        return id, i + 1;
      }
      place := place * 128;
      i := i + 1;
    }
  }
}
