/** The bytes on the wire: what messages, packets and flags look like, in numbers, and how clashes end a dictionary. */
module MessageWire {
  import opened Sets
  import opened MessageCodec

  // ---------- Ids ----------

  /** Seven bits to a byte, the lowest first. */
  function LittleEndian(b: Bytes): nat {
    if b == [] then 0 else b[0] % 128 + 128 * LittleEndian(b[1..])
  }

  /** The bytes spell the id, as shortly as possible; only the last is below 128. */
  ghost predicate SpellsId(b: Bytes, n: nat) {
    && b != [] && LittleEndian(b) == n
    && (forall i :: 0 <= i < |b| - 1 ==> b[i] >= 128) && b[|b| - 1] < 128
    && (|b| > 1 ==> b[|b| - 1] != 0)
  }

  lemma FirstDigit(b: Bytes)
    requires b != []
    ensures LittleEndian(b) == b[0] % 128 + 128 * LittleEndian(b[1..])
  {
  }

  /** One more byte in front. */
  lemma SpellsMore(b: Bytes, n: nat, digit: nat)
    requires SpellsId(b, n) && n > 0 && digit < 128
    ensures SpellsId([digit + 128] + b, digit + 128 * n)
  {
    var c := [digit + 128] + b;
    assert c[1..] == b && c[0] % 128 == digit;
    assert forall i :: 0 < i < |c| ==> c[i] == b[i - 1];
    if |b| == 1 {
      FirstDigit(b);
      assert b[1..] == [] && LittleEndian(b[1..]) == 0;
    }
  }

  lemma {:induction false} VarintSpells(n: nat)
    ensures SpellsId(Varint(n), n)
  {
    if n < 128 {
      assert Varint(n)[1..] == [];
    } else {
      VarintSpells(n / 128);
      SpellsMore(Varint(n / 128), n / 128, n % 128);
    }
  }

  // ---------- Messages ----------

  /** Three bytes, the high one first. */
  function Number(high: int, middle: int, low: int): int {
    high * 0x1_0000 + middle * 0x100 + low
  }

  /** A code in two bytes, the high one first, or the length in one byte and the route itself. */
  ghost predicate SpellsRoute(d: Dictionary, b: Bytes, route: Bytes) {
    if route in d.routes then |b| == 2 && Number(0, b[0], b[1]) == d.routes[route]
    else |b| == |route| + 1 && b[0] == |route| % 256 && b[1..] == route
  }

  /** A request has an id and a route, a notification and a push have a route, a response has an id. */
  ghost predicate OnWire(d: Dictionary, m: Message, body: Bytes, id: Bytes, route: Bytes) {
    var bit := if m.route in d.routes then 1 else 0;
    match m.kind
    case 0 => body == [0 + bit] + id + route + m.data && SpellsId(id, m.id) && SpellsRoute(d, route, m.route)
    case 1 => body == [2 + bit] + id + route + m.data && id == [] && SpellsRoute(d, route, m.route)
    case 2 => body == [4 + bit] + id + route + m.data && SpellsId(id, m.id) && route == []
    case 3 => body == [6 + bit] + id + route + m.data && id == [] && SpellsRoute(d, route, m.route)
    case _ => false
  }

  lemma RouteSpelled(d: Dictionary, route: Bytes)
    ensures SpellsRoute(d, RoutePart(d, route), route)
  {
  }

  /** Encoding a message of one of the four kinds succeeds, with these bytes; any other kind is refused. */
  lemma MessageOnWire(d: Dictionary, m: Message) returns (id: Bytes, route: Bytes)
    ensures m.kind <= 3 ==> Encode(d, m).Ok? && OnWire(d, m, Encode(d, m).value, id, route)
    ensures m.kind > 3 ==> Encode(d, m) == Err(InvalidType)
  {
    id := if HasId(m.kind) then Varint(m.id) else [];
    route := if Routable(m.kind) then RoutePart(d, m.route) else [];
    VarintSpells(m.id);
    RouteSpelled(d, m.route);
  }

  /** The upper four bits of the flag: 16 says that the data is compressed, 32 that it reports an error. */
  ghost function Marked(r: Message, e: nat, inflate: Bytes -> Result<Bytes>): Result<Message> {
    var reported := (e / 2) % 2 == 1;
    if e % 2 == 1 then
      match inflate(r.data)
      case Ok(data) => Ok(r.(data := data, error := reported))
      case Err(p) => Err(p)
      case Panic => Panic
    else Ok(r.(error := reported))
  }

  lemma UpperBits(low: int, e: int)
    requires 0 <= low < 8 && 0 <= e < 16
    ensures var flag := low + 16 * e;
            && 0 <= flag < 256 && (flag / 2) % 8 == low / 2 && flag % 2 == low % 2
            && (flag / 16) % 2 == e % 2 && (flag / 32) % 2 == (e / 2) % 2
  {
    assert (low + 16 * e) / 16 == e;
    assert (low + 16 * e) / 32 == e / 2;
    assert (low + 16 * e) / 2 == low / 2 + 8 * e;
  }

  lemma MarkedShape(body: Bytes, flag: Byte, id: Bytes, route: Bytes, data: Bytes)
    requires body != [] && body == [body[0]] + id + (route + data)
    ensures [flag] + body[1..] == [flag] + id + (route + data) == ([flag] + id) + route + data
  {
    assert body[1..] == id + (route + data);
    assert [flag] + (id + (route + data)) == [flag] + id + (route + data);
    assert [flag] + id + (route + data) == ([flag] + id) + route + data;
  }

  /** An encoded message whose upper flag bits are set besides. */
  lemma MarksRead(d: Dictionary, m: Message, body: Bytes, spare: Bytes, inflate: Bytes -> Result<Bytes>, e: nat)
    requires Inverse(d) && Encode(d, m) == Ok(body) && e < 16
    ensures body != [] && body[0] < 8
    ensures Decode(d, [body[0] + 16 * e] + body[1..], spare, inflate) == Marked(Received(d, m), e, inflate)
  {
    BodyShape(d, m, body);
    UpperBits(body[0], e);
    FlagBits(m.kind, if m.route in d.routes then 1 else 0);
    MarkedRead(d, m, body, spare, inflate, e, body[0] + 16 * e);
  }

  lemma MarkedRead(d: Dictionary, m: Message, body: Bytes, spare: Bytes, inflate: Bytes -> Result<Bytes>, e: nat,
                   flag: Byte)
    requires Inverse(d) && Encode(d, m) == Ok(body) && body != [] && (flag / 2) % 8 == m.kind <= PUSH
    requires (flag % 2 == 1 <==> m.route in d.routes)
    requires (flag / 16) % 2 == e % 2 && (flag / 32) % 2 == (e / 2) % 2
    ensures Decode(d, [flag] + body[1..], spare, inflate) == Marked(Received(d, m), e, inflate)
  {
    BodyShape(d, m, body);
    var id := if HasId(m.kind) then Varint(m.id) else [];
    var route := if Routable(m.kind) then RoutePart(d, m.route) else [];
    var marked, r := [flag] + body[1..], Received(d, m);
    MarkedShape(body, flag, id, route, m.data);
    ReadsId(m, marked, flag, route + m.data);
    ReadsRest(d, m, marked, [flag] + id, spare);
    MarkedParts(d, marked, spare, inflate, r, 1 + |id|, |marked| - |r.data|, e);
  }

  lemma MarkedParts(d: Dictionary, body: Bytes, spare: Bytes, inflate: Bytes -> Result<Bytes>, r: Message, offset: nat,
                    after: nat, e: nat)
    requires body != [] && (body[0] / 2) % 8 == r.kind <= PUSH && after <= |body| && body[after..] == r.data
    requires (body[0] / 16) % 2 == e % 2 && (body[0] / 32) % 2 == (e / 2) % 2
    requires r.compressed == (Routable(r.kind) && body[0] % 2 == 1)
    requires (if HasId(r.kind) then ScanId(body, 1, 0, 0) else (0, 1)) == (r.id, offset)
    requires (if Routable(r.kind) then ReadRoute(d, body, spare, offset, r.compressed) else Ok(([], offset)))
             == Ok((r.route, after))
    ensures Decode(d, body, spare, inflate) == Marked(r, e, inflate)
  {
  }

  /** Of the sixteen values of the lower four bits, those from 8 on name no kind. */
  lemma UnknownKind(d: Dictionary, body: Bytes, spare: Bytes, inflate: Bytes -> Result<Bytes>)
    requires body != []
    ensures body[0] % 16 >= 8 ==> Decode(d, body, spare, inflate) == Err(InvalidType)
  {
    assert (body[0] / 2) % 8 == (body[0] % 16) / 2;
  }

  lemma Remainders(a: nat, b: nat)
    ensures (a % WORD + b) % WORD == (a + b) % WORD
  {
    var q := a / WORD;
    assert a + b == (a % WORD + b) + q * WORD;
  }

  /** One digit more. */
  lemma NextDigit(id: Word, k: nat, digit: nat, rest: nat)
    ensures ((id + digit * Pow128(k)) % WORD + Pow128(k + 1) * rest) % WORD
         == (id + Pow128(k) * (digit + 128 * rest)) % WORD
  {
    var p := Pow128(k);
    assert p * (digit + 128 * rest) == digit * p + (p * 128) * rest;
    Remainders(id + digit * p, (p * 128) * rest);
  }

  lemma ScanNext(body: Bytes, i: nat, k: nat, id: Word)
    requires i < |body| && body[i] >= 128
    ensures ScanId(body, i, k, id) == ScanId(body, i + 1, k + 1, (id + (body[i] % 128) * Pow128(k)) % WORD)
  {
  }

  /** An id whose bytes run out is read as far as it goes, and does not count as read: the data begins with it. */
  lemma {:induction false} ScanRunsOut(body: Bytes, i: nat, k: nat, id: Word)
    requires i <= |body| && forall j :: i <= j < |body| ==> body[j] >= 128
    ensures ScanId(body, i, k, id) == ((id + Pow128(k) * LittleEndian(body[i..])) % WORD, 1)
    decreases |body| - i
  {
    if i == |body| {
      assert LittleEndian(body[i..]) == 0;
      Small(id);
    } else {
      ScanNext(body, i, k, id);
      ScanRunsOut(body, i + 1, k + 1, (id + (body[i] % 128) * Pow128(k)) % WORD);
      assert body[i..][1..] == body[i + 1..] && body[i..][0] == body[i];
      FirstDigit(body[i..]);
      NextDigit(id, k, body[i] % 128, LittleEndian(body[i + 1..]));
    }
  }

  /** A response whose id never ends: what was read of the id is kept, and is delivered as data as well. */
  lemma UnfinishedId(d: Dictionary, body: Bytes, spare: Bytes, inflate: Bytes -> Result<Bytes>)
    requires body != [] && body[0] == 4 && forall j :: 1 <= j < |body| ==> body[j] >= 128
    ensures Decode(d, body, spare, inflate) ==
              Ok(Message(2, LittleEndian(body[1..]) % WORD, [], body[1..], false, false))
  {
    ScanRunsOut(body, 1, 0, 0);
    assert Pow128(0) * LittleEndian(body[1..]) == LittleEndian(body[1..]);
  }

  /** A notification whose code is not in the dictionary. */
  lemma UnknownCode(d: Dictionary, high: Byte, low: Byte, data: Bytes, spare: Bytes, inflate: Bytes -> Result<Bytes>)
    requires Number(0, high, low) !in d.codes
    ensures Decode(d, [3, high, low] + data, spare, inflate) == Err(UnknownRoute)
  {
    var body := [3, high, low] + data;
    assert body[0] == 3 && (body + spare)[1] == high && (body + spare)[2] == low;
  }

  // ---------- Packets ----------

  function Pow256(k: nat): nat {
    if k == 0 then 1 else 256 * Pow256(k - 1)
  }

  /** The first byte counts most. */
  lemma {:induction false} BigEndian(x: Byte, b: Bytes)
    ensures BytesToInt([x] + b) == x * Pow256(|b|) + BytesToInt(b)
  {
    var all := [x] + b;
    if b == [] {
      assert all[..0] == [];
    } else {
      var n := |b| - 1;
      BigEndian(x, b[..n]);
      assert all[..|all| - 1] == [x] + b[..n];
      assert (x * Pow256(n)) * 256 == x * (256 * Pow256(n));
    }
  }

  /** A packet: one byte for the kind, three for the length, the high one first, and the body. */
  lemma PacketOnWire(kind: Byte, body: Bytes)
    ensures var r := EncodePacket(kind, body);
            if kind == 0 then r == Err(BadKind)
            else if |body| > 0x100_0000 then r == Err(TooBig)
            else && r.Ok? && |r.value| == |body| + 4 && r.value[0] == kind && r.value[4..] == body
                 && Number(r.value[1], r.value[2], r.value[3]) == |body| % 0x100_0000
  {
    if kind != 0 && |body| <= MAX_PACKET {
      assert EncodePacket(kind, body).value[4..] == body;
      ThreeBytes(|body|);
    }
  }

  lemma ThreeBytes(n: nat)
    ensures var b := IntToBytes(n); Number(b[0], b[1], b[2]) == n % 0x100_0000
  {
    var p, q, r := n / 256, n / 0x1_0000, n / 0x100_0000;
    assert p / 256 == q && q / 256 == r;
    assert n == p * 256 + n % 256 && p == q * 256 + p % 256 && q == r * 256 + q % 256;
    assert n == r * 0x100_0000 + Number(q % 256, p % 256, n % 256);
  }

  // ---------- The dictionary ----------

  /** The entry at place k clashes with the dictionary or with an earlier entry, by route or by code. */
  ghost predicate Clashes(d: Dictionary, trim: Bytes -> Bytes, dict: map<Bytes, Code>, order: seq<Bytes>, k: nat)
    requires k < |order| && forall i :: 0 <= i < |order| ==> order[i] in dict
  {
    || trim(order[k]) in d.routes || dict[order[k]] in d.codes
    || exists i :: 0 <= i < k && (trim(order[i]) == trim(order[k]) || dict[order[i]] == dict[order[k]])
  }

  lemma {:induction false} AddExtends(d: Dictionary, trim: Bytes -> Bytes, dict: map<Bytes, Code>, order: seq<Bytes>)
    requires forall i :: 0 <= i < |order| ==> order[i] in dict
    ensures Extends(d, AddAlong(d, trim, dict, order))
    decreases |order|
  {
    if order != [] {
      var r, c := trim(order[0]), dict[order[0]];
      if r !in d.routes && c !in d.codes {
        AddExtends(Dictionary(d.routes[r := c], d.codes[c := r]), trim, dict, order[1..]);
      }
    }
  }

  /** A dictionary takes the entries up to the first clash, and no more. */
  lemma {:induction false} AddsUpToClash(d: Dictionary, trim: Bytes -> Bytes, dict: map<Bytes, Code>, order: seq<Bytes>,
                                         n: nat, r: Bytes)
    requires (forall i :: 0 <= i < |order| ==> order[i] in dict) && n <= |order|
    requires forall k: nat :: k < n ==> !Clashes(d, trim, dict, order, k)
    requires n < |order| ==> Clashes(d, trim, dict, order, n)
    ensures var e := AddAlong(d, trim, dict, order);
            r in e.routes <==> r in d.routes || exists i :: 0 <= i < n && trim(order[i]) == r
    ensures var e := AddAlong(d, trim, dict, order);
            forall i :: 0 <= i < n ==> trim(order[i]) in e.routes && e.routes[trim(order[i])] == dict[order[i]]
    decreases |order|
  {
    if order != [] && n > 0 {
      var t, c, rest := trim(order[0]), dict[order[0]], order[1..];
      var f := Dictionary(d.routes[t := c], d.codes[c := t]);
      assert !Clashes(d, trim, dict, order, 0);
      forall k: nat | k < |rest| ensures Clashes(f, trim, dict, rest, k) <==> Clashes(d, trim, dict, order, k + 1) {
        ClashShift(d, f, trim, dict, order, k);
      }
      AddsUpToClash(f, trim, dict, rest, n - 1, r);
      AddExtends(f, trim, dict, rest);
      assert AddAlong(d, trim, dict, order) == AddAlong(f, trim, dict, rest);
      assert forall i :: 0 < i < n ==> order[i] == rest[i - 1];
    }
  }

  lemma ClashShift(d: Dictionary, f: Dictionary, trim: Bytes -> Bytes, dict: map<Bytes, Code>, order: seq<Bytes>,
                   k: nat)
    requires k + 1 < |order| && forall i :: 0 <= i < |order| ==> order[i] in dict
    requires f == Dictionary(d.routes[trim(order[0]) := dict[order[0]]], d.codes[dict[order[0]] := trim(order[0])])
    ensures Clashes(f, trim, dict, order[1..], k) <==> Clashes(d, trim, dict, order, k + 1)
  {
    var rest := order[1..];
    assert rest[k] == order[k + 1];
    if i :| 0 <= i < k && (trim(rest[i]) == trim(rest[k]) || dict[rest[i]] == dict[rest[k]]) {
      assert order[i + 1] == rest[i];
    }
    if i :| 0 <= i < k + 1 && (trim(order[i]) == trim(order[k + 1]) || dict[order[i]] == dict[order[k + 1]]) {
      assert i > 0 ==> rest[i - 1] == order[i];
    }
  }
}
