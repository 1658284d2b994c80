/** The byte stream between the native-call server and its client. */
module Wire {
  import opened Wrappers
  import opened Sequences
  import opened CStrings
  import opened Bits

  // ----- Numbers, least significant byte first -----

  function Range(k: nat): (r: nat)
    ensures r >= 1
  {
    if k == 0 then 1 else 256 * Range(k - 1)
  }

  function Little(n: nat, k: nat): (s: seq<byte>)
    ensures |s| == k
  {
    if k == 0 then [] else [n % 256] + Little(n / 256, k - 1)
  }

  function Number(s: seq<byte>): nat {
    if s == [] then 0 else s[0] + 256 * Number(s[1..])
  }

  lemma {:induction false} NumberOfLittle(n: nat, k: nat)
    requires n < Range(k)
    ensures Number(Little(n, k)) == n
  {
    if k > 0 {
      NumberOfLittle(n / 256, k - 1);
    }
  }

  lemma RangeOfWord()
    ensures Range(4) == 0x1_0000_0000
  {
  }

  // ----- Requests -----

  /** Memory that a call needs: where it lies, whether the server must take care which bytes it stores, and what it holds. */
  datatype Region = Region(address: nat, flag: byte, data: seq<byte>)

  datatype Request =
    | Invoke(trampoline: nat, fptr: nat, retval: nat, regions: seq<Region>)
    | GetSymbolTable
    | Alloc(size: nat)
    | SyncRead(address: nat, size: nat)

  /** What ends a session: the exit command, or one of the two errors the server reports. */
  datatype Ending =
    | Exit
    | Undefined(opcode: byte)
    | TooManyRegions(trampoline: nat, fptr: nat, retval: nat, count: nat)

  const NATIVE_MEMORY_SIZE: nat := 8192

  function EncodeRegion(r: Region): seq<byte> {
    Little(r.address, 8) + ([r.flag] + (Little(|r.data|, 4) + r.data))
  }

  function EncodeRegions(rs: seq<Region>): seq<byte> {
    if rs == [] then [] else EncodeRegion(rs[0]) + EncodeRegions(rs[1..])
  }

  function EncodeCall(trampoline: nat, fptr: nat, retval: nat, count: nat): seq<byte> {
    Little(trampoline, 8) + (Little(fptr, 8) + (Little(retval, 8) + Little(count, 4)))
  }

  /** What follows the opcode. */
  function EncodeParameters(q: Request): seq<byte> {
    match q
    case Invoke(trampoline, fptr, retval, regions) =>
      EncodeCall(trampoline, fptr, retval, |regions|) + EncodeRegions(regions)
    case GetSymbolTable => []
    case Alloc(size) => Little(size, 8)
    case SyncRead(address, size) => Little(address, 8) + Little(size, 4)
  }

  function Opcode(q: Request): byte {
    match q
    case Invoke(_, _, _, _) => 0
    case GetSymbolTable => 1
    case Alloc(_) => 2
    case SyncRead(_, _) => 3
  }

  function Encode(q: Request): seq<byte> {
    [Opcode(q)] + EncodeParameters(q)
  }

  function EncodeAll(qs: seq<Request>): seq<byte> {
    if qs == [] then [] else Encode(qs[0]) + EncodeAll(qs[1..])
  }

  function EncodeEnding(e: Ending): seq<byte> {
    match e
    case Exit => [4]
    case Undefined(opcode) => [opcode]
    case TooManyRegions(trampoline, fptr, retval, count) => [0] + EncodeCall(trampoline, fptr, retval, count)
  }

  /** A region that lies in a memory of `size` bytes and can be described. */
  ghost predicate RegionFits(r: Region, size: nat) {
    r.address < Range(8) && |r.data| < Range(4) && r.address + |r.data| <= size
  }

  ghost predicate RegionsFit(rs: seq<Region>, size: nat) {
    forall i :: 0 <= i < |rs| ==> RegionFits(rs[i], size)
  }

  ghost predicate CallFits(trampoline: nat, fptr: nat, retval: nat) {
    trampoline < Range(8) && fptr < Range(8) && retval < Range(8)
  }

  ghost predicate Fits(q: Request, size: nat) {
    match q
    case Invoke(trampoline, fptr, retval, regions) =>
      CallFits(trampoline, fptr, retval) && |regions| <= NATIVE_MEMORY_SIZE
      && RegionsFit(regions, size)
    case GetSymbolTable => true
    case Alloc(n) => n < Range(8)
    case SyncRead(address, n) => address < Range(8) && n < 0x8000_0000 && address + n <= size
  }

  ghost predicate AllFit(qs: seq<Request>, size: nat) {
    forall i :: 0 <= i < |qs| ==> Fits(qs[i], size)
  }

  ghost predicate EndingFits(e: Ending) {
    match e
    case Exit => true
    case Undefined(opcode) => opcode > 4
    case TooManyRegions(trampoline, fptr, retval, count) =>
      CallFits(trampoline, fptr, retval) && NATIVE_MEMORY_SIZE < count < Range(4)
  }

  // ----- Replies -----

  /** Bytes and the address that belongs to them: a region after a call, or the name of a symbol. */
  datatype Block = Block(data: seq<byte>, address: nat)

  datatype Reply =
    | Blocks(blocks: seq<Block>)
    | Address(address: nat)
    | Contents(data: seq<byte>)

  function EncodeBlock(b: Block): seq<byte> {
    Little(|b.data|, 4) + (b.data + Little(b.address, 8))
  }

  function EncodeBlocks(bs: seq<Block>): seq<byte> {
    if bs == [] then [] else EncodeBlock(bs[0]) + EncodeBlocks(bs[1..])
  }

  function EncodeReply(r: Reply): seq<byte> {
    match r
    case Blocks(bs) => Little(|bs|, 4) + EncodeBlocks(bs)
    case Address(a) => Little(a, 8)
    case Contents(data) => data
  }

  function EncodeReplies(rs: seq<Reply>): seq<byte> {
    if rs == [] then [] else EncodeReply(rs[0]) + EncodeReplies(rs[1..])
  }

  ghost predicate BlocksFit(bs: seq<Block>) {
    |bs| < Range(4) && forall i :: 0 <= i < |bs| ==> |bs[i].data| < Range(4) && bs[i].address < Range(8)
  }

  /** The kind of reply that a request asks for; the client knows how many bytes it asked to see. */
  ghost predicate Answers(r: Reply, q: Request) {
    match q
    case Invoke(_, _, _, _) => r.Blocks? && BlocksFit(r.blocks)
    case GetSymbolTable => r.Blocks? && BlocksFit(r.blocks)
    case Alloc(_) => r.Address? && r.address < Range(8)
    case SyncRead(_, n) => r.Contents? && |r.data| == n
  }

  // ----- Place values -----

  /** The i-th byte holds the i-th digit of the number in base 256. */
  lemma {:induction false} LittleAt(n: nat, k: nat, i: nat)
    requires i < k
    ensures Little(n, k)[i] == n / Range(i) % 256
  {
    if i > 0 {
      LittleAt(n / 256, k - 1, i - 1);
      DivDiv(n, 256, Range(i - 1));
    }
  }

  // ----- Reading requests -----

  /** A number of k bytes, and what follows it. */
  function ReadNumber(s: seq<byte>, k: nat): (r: Option<(nat, seq<byte>)>)
    ensures r.Some? ==> |r.value.1| == |s| - k
  {
    if |s| < k then None else Some((Number(s[..k]), s[k..]))
  }

  function ReadBytes(s: seq<byte>, k: nat): (r: Option<(seq<byte>, seq<byte>)>)
    ensures r.Some? ==> |r.value.1| == |s| - k
  {
    if |s| < k then None else Some((s[..k], s[k..]))
  }

  function ReadRegion(s: seq<byte>): (r: Option<(Region, seq<byte>)>)
    ensures r.Some? ==> |r.value.1| < |s|
  {
    match ReadNumber(s, 8)
    case None => None
    case Some((address, s1)) =>
      if s1 == [] then None
      else
        match ReadNumber(s1[1..], 4)
        case None => None
        case Some((size, s2)) =>
          match ReadBytes(s2, size)
          case None => None
          case Some((data, rest)) => Some((Region(address, s1[0], data), rest))
  }

  function ReadRegions(n: nat, s: seq<byte>): (r: Option<(seq<Region>, seq<byte>)>)
    ensures r.Some? ==> |r.value.1| <= |s|
  {
    if n == 0 then Some(([], s))
    else
      match ReadRegion(s)
      case None => None
      case Some((r, s1)) =>
        match ReadRegions(n - 1, s1)
        case None => None
        case Some((rs, rest)) => Some(([r] + rs, rest))
  }

  /** What starts a call: trampoline, function, return buffer and number of regions. */
  datatype Head = Head(trampoline: nat, fptr: nat, retval: nat, count: nat)

  function ReadHead(s: seq<byte>): (r: Option<(Head, seq<byte>)>)
    ensures r.Some? ==> |r.value.1| < |s|
  {
    if |s| < 28 then None
    else Some((Head(Number(s[0..8]), Number(s[8..16]), Number(s[16..24]), Number(s[24..28])), s[28..]))
  }

  /** One turn of the command loop: a request, or what ends the session. */
  datatype Turn = Next(q: Request) | Last(e: Ending)

  function ReadCall(s: seq<byte>): (r: Option<(Turn, seq<byte>)>)
    ensures r.Some? ==> |r.value.1| <= |s|
  {
    match ReadHead(s)
    case None => None
    case Some((h, s1)) =>
      if h.count > 8192 then Some((Last(TooManyRegions(h.trampoline, h.fptr, h.retval, h.count)), s1))
      else
        match ReadRegions(h.count, s1)
        case None => None
        case Some((rs, rest)) => Some((Next(Invoke(h.trampoline, h.fptr, h.retval, rs)), rest))
  }

  function ReadTurn(s: seq<byte>): (r: Option<(Turn, seq<byte>)>)
    ensures r.Some? ==> |r.value.1| < |s|
  {
    if s == [] then None
    else if s[0] == 0 then ReadCall(s[1..])
    else if s[0] == 1 then Some((Next(GetSymbolTable), s[1..]))
    else if s[0] == 2 then
      match ReadNumber(s[1..], 8)
      case None => None
      case Some((size, rest)) => Some((Next(Alloc(size)), rest))
    else if s[0] == 3 then
      (if |s| < 13 then None else Some((Next(SyncRead(Number(s[1..9]), Number(s[9..13]))), s[13..])))
    else if s[0] == 4 then Some((Last(Exit), s[1..]))
    else Some((Last(Undefined(s[0])), s[1..]))
  }

  datatype Session = Session(requests: seq<Request>, ending: Ending, rest: seq<byte>)

  function ReadSession(s: seq<byte>): Option<Session>
    decreases |s|
  {
    match ReadTurn(s)
    case None => None
    case Some((Last(e), rest)) => Some(Session([], e, rest))
    case Some((Next(q), rest)) =>
      match ReadSession(rest)
      case None => None
      case Some(later) => Some(later.(requests := [q] + later.requests))
  }

  function EncodeTurn(c: Turn): (s: seq<byte>)
    ensures s != []
  {
    match c
    case Next(q) => Encode(q)
    case Last(e) => EncodeEnding(e)
  }

  ghost predicate TurnFits(c: Turn, size: nat) {
    match c
    case Next(q) => Fits(q, size)
    case Last(e) => EndingFits(e)
  }

  // ----- Every session is read back -----

  lemma NumberRead(n: nat, k: nat, rest: seq<byte>)
    requires n < Range(k)
    ensures ReadNumber(Little(n, k) + rest, k) == Some((n, rest))
    ensures Number((Little(n, k) + rest)[..k]) == n && (Little(n, k) + rest)[k..] == rest
  {
    NumberOfLittle(n, k);
    assert (Little(n, k) + rest)[..k] == Little(n, k);
  }

  lemma BytesRead(data: seq<byte>, rest: seq<byte>)
    ensures ReadBytes(data + rest, |data|) == Some((data, rest))
  {
    assert (data + rest)[..|data|] == data;
  }

  lemma RegionUnfolds(r: Region, x: seq<byte>)
    ensures EncodeRegion(r) + x == Little(r.address, 8) + ([r.flag] + (Little(|r.data|, 4) + (r.data + x)))
  {
    var size := Little(|r.data|, 4);
    Assoc(Little(r.address, 8), [r.flag] + (size + r.data), x);
    Assoc([r.flag], size + r.data, x);
    Assoc(size, r.data, x);
  }

  lemma RegionRead(r: Region, rest: seq<byte>)
    requires r.address < Range(8) && |r.data| < Range(4)
    ensures ReadRegion(EncodeRegion(r) + rest) == Some((r, rest))
  {
    RegionUnfolds(r, rest);
    var s2 := Little(|r.data|, 4) + (r.data + rest);
    NumberRead(r.address, 8, [r.flag] + s2);
    assert ([r.flag] + s2)[1..] == s2;
    NumberRead(|r.data|, 4, r.data + rest);
    BytesRead(r.data, rest);
  }

  lemma {:induction false} RegionsRead(rs: seq<Region>, rest: seq<byte>, size: nat)
    requires RegionsFit(rs, size)
    ensures ReadRegions(|rs|, EncodeRegions(rs) + rest) == Some((rs, rest))
  {
    hide Little, Number, Range, ReadRegion, EncodeRegion;
    if rs == [] {
      assert [] + rest == rest;
    } else {
      Assoc(EncodeRegion(rs[0]), EncodeRegions(rs[1..]), rest);
      RegionRead(rs[0], EncodeRegions(rs[1..]) + rest);
      RegionsRead(rs[1..], rest, size);
      assert [rs[0]] + rs[1..] == rs;
    }
  }

  lemma CallUnfolds(t: nat, f: nat, r: nat, n: nat, x: seq<byte>)
    ensures EncodeCall(t, f, r, n) + x == Little(t, 8) + (Little(f, 8) + (Little(r, 8) + (Little(n, 4) + x)))
  {
    Assoc(Little(t, 8), Little(f, 8) + (Little(r, 8) + Little(n, 4)), x);
    Assoc(Little(f, 8), Little(r, 8) + Little(n, 4), x);
    Assoc(Little(r, 8), Little(n, 4), x);
  }

  lemma HeadRead(t: nat, f: nat, r: nat, n: nat, rest: seq<byte>)
    requires CallFits(t, f, r) && n < Range(4)
    ensures ReadHead(EncodeCall(t, f, r, n) + rest) == Some((Head(t, f, r, n), rest))
  {
    hide Little, Number, Range;
    CallUnfolds(t, f, r, n, rest);
    NumberOfLittle(t, 8);
    NumberOfLittle(f, 8);
    NumberOfLittle(r, 8);
    NumberOfLittle(n, 4);
    FourFields(Little(t, 8), Little(f, 8), Little(r, 8), Little(n, 4), rest);
  }

  lemma FourFields(a: seq<byte>, b: seq<byte>, c: seq<byte>, d: seq<byte>, rest: seq<byte>)
    requires |a| == |b| == |c| == 8 && |d| == 4
    ensures var s := a + (b + (c + (d + rest)));
            s[0..8] == a && s[8..16] == b && s[16..24] == c && s[24..28] == d && s[28..] == rest
  {
  }

  lemma AfterOpcode(c: Turn, rest: seq<byte>)
    ensures EncodeTurn(c) + rest == EncodeTurn(c)[..1] + (EncodeTurn(c)[1..] + rest)
    ensures (EncodeTurn(c) + rest)[0] == EncodeTurn(c)[0] && (EncodeTurn(c) + rest)[1..] == EncodeTurn(c)[1..] + rest
  {
    assert EncodeTurn(c) == EncodeTurn(c)[..1] + EncodeTurn(c)[1..];
    Assoc(EncodeTurn(c)[..1], EncodeTurn(c)[1..], rest);
  }

  lemma CallRead(q: Request, rest: seq<byte>, size: nat)
    requires q.Invoke? && Fits(q, size)
    ensures ReadTurn(Encode(q) + rest) == Some((Next(q), rest))
  {
    RangeOfWord();
    hide Little, Number, Range, EncodeCall, ReadHead, ReadRegions, EncodeRegions;
    AfterOpcode(Next(q), rest);
    Assoc(EncodeCall(q.trampoline, q.fptr, q.retval, |q.regions|), EncodeRegions(q.regions), rest);
    HeadRead(q.trampoline, q.fptr, q.retval, |q.regions|, EncodeRegions(q.regions) + rest);
    RegionsRead(q.regions, rest, size);
  }

  lemma SyncReadRead(address: nat, n: nat, rest: seq<byte>)
    requires address < Range(8) && n < Range(4)
    ensures ReadTurn(Encode(SyncRead(address, n)) + rest) == Some((Next(SyncRead(address, n)), rest))
  {
    var s := Encode(SyncRead(address, n)) + rest;
    NumberOfLittle(address, 8);
    NumberOfLittle(n, 4);
    assert s[1..9] == Little(address, 8) && s[9..13] == Little(n, 4) && s[13..] == rest;
  }

  /** Every turn is read back from its bytes, whatever follows them. */
  lemma TurnRead(c: Turn, rest: seq<byte>, size: nat)
    requires TurnFits(c, size)
    ensures ReadTurn(EncodeTurn(c) + rest) == Some((c, rest))
  {
    RangeOfWord();
    AfterOpcode(c, rest);
    hide Little, Number, Range;
    match c
    case Next(Invoke(_, _, _, _)) => CallRead(c.q, rest, size);
    case Next(GetSymbolTable) => assert [] + rest == rest;
    case Next(Alloc(n)) => NumberRead(n, 8, rest);
    case Next(SyncRead(a, n)) => SyncReadRead(a, n, rest);
    case Last(TooManyRegions(t, f, r, n)) => HeadRead(t, f, r, n, rest);
    case Last(Exit) => assert [] + rest == rest;
    case Last(Undefined(_)) => assert [] + rest == rest;
  }

  /** Every session is read back: its requests, how it ends and what is left over. */
  lemma {:induction false} SessionRead(qs: seq<Request>, e: Ending, rest: seq<byte>, size: nat)
    requires AllFit(qs, size) && EndingFits(e)
    ensures ReadSession(EncodeAll(qs) + (EncodeEnding(e) + rest)) == Some(Session(qs, e, rest))
  {
    hide Little, Number, Range, ReadTurn, Encode, EncodeEnding;
    var end := EncodeEnding(e) + rest;
    if qs == [] {
      assert [] + end == end;
      TurnRead(Last(e), rest, size);
    } else {
      Assoc(Encode(qs[0]), EncodeAll(qs[1..]), end);
      TurnRead(Next(qs[0]), EncodeAll(qs[1..]) + end, size);
      SessionRead(qs[1..], e, rest, size);
      assert [qs[0]] + qs[1..] == qs;
    }
  }

  /** So a byte stream is at most one session. */
  lemma SessionIsUnique(qs: seq<Request>, e: Ending, x: seq<byte>, qs': seq<Request>, e': Ending, y: seq<byte>, size: nat)
    requires AllFit(qs, size) && AllFit(qs', size) && EndingFits(e) && EndingFits(e')
    requires EncodeAll(qs) + (EncodeEnding(e) + x) == EncodeAll(qs') + (EncodeEnding(e') + y)
    ensures qs == qs' && e == e' && x == y
  {
    SessionRead(qs, e, x, size);
    SessionRead(qs', e', y, size);
  }

  // ----- Reading replies -----

  function ReadBlock(s: seq<byte>): (r: Option<(Block, seq<byte>)>)
    ensures r.Some? ==> |r.value.1| < |s|
  {
    match ReadNumber(s, 4)
    case None => None
    case Some((size, s1)) =>
      match ReadBytes(s1, size)
      case None => None
      case Some((data, s2)) =>
        match ReadNumber(s2, 8)
        case None => None
        case Some((address, rest)) => Some((Block(data, address), rest))
  }

  function ReadBlocks(n: nat, s: seq<byte>): Option<(seq<Block>, seq<byte>)> {
    if n == 0 then Some(([], s))
    else
      match ReadBlock(s)
      case None => None
      case Some((b, s1)) =>
        match ReadBlocks(n - 1, s1)
        case None => None
        case Some((bs, rest)) => Some(([b] + bs, rest))
  }

  /** The reply to a request, as a client reads it. */
  function ReadReply(q: Request, s: seq<byte>): Option<(Reply, seq<byte>)> {
    if q.Alloc? then
      match ReadNumber(s, 8)
      case None => None
      case Some((address, rest)) => Some((Address(address), rest))
    else if q.SyncRead? then
      match ReadBytes(s, q.size)
      case None => None
      case Some((data, rest)) => Some((Contents(data), rest))
    else
      match ReadNumber(s, 4)
      case None => None
      case Some((n, s1)) =>
        match ReadBlocks(n, s1)
        case None => None
        case Some((bs, rest)) => Some((Blocks(bs), rest))
  }

  function ReadReplies(qs: seq<Request>, s: seq<byte>): Option<(seq<Reply>, seq<byte>)> {
    if qs == [] then Some(([], s))
    else
      match ReadReply(qs[0], s)
      case None => None
      case Some((r, s1)) =>
        match ReadReplies(qs[1..], s1)
        case None => None
        case Some((rs, rest)) => Some(([r] + rs, rest))
  }

  lemma BlockRead(b: Block, rest: seq<byte>)
    requires |b.data| < Range(4) && b.address < Range(8)
    ensures ReadBlock(EncodeBlock(b) + rest) == Some((b, rest))
  {
    Assoc(Little(|b.data|, 4), b.data + Little(b.address, 8), rest);
    Assoc(b.data, Little(b.address, 8), rest);
    NumberRead(|b.data|, 4, b.data + (Little(b.address, 8) + rest));
    BytesRead(b.data, Little(b.address, 8) + rest);
    NumberRead(b.address, 8, rest);
  }

  lemma {:induction false} BlocksRead(bs: seq<Block>, rest: seq<byte>)
    requires BlocksFit(bs)
    ensures ReadBlocks(|bs|, EncodeBlocks(bs) + rest) == Some((bs, rest))
  {
    hide Little, Number, Range, ReadBlock, EncodeBlock;
    if bs == [] {
      assert [] + rest == rest;
    } else {
      Assoc(EncodeBlock(bs[0]), EncodeBlocks(bs[1..]), rest);
      BlockRead(bs[0], EncodeBlocks(bs[1..]) + rest);
      BlocksRead(bs[1..], rest);
      assert [bs[0]] + bs[1..] == bs;
    }
  }

  lemma ReplyRead(q: Request, r: Reply, rest: seq<byte>)
    requires Answers(r, q)
    ensures ReadReply(q, EncodeReply(r) + rest) == Some((r, rest))
  {
    match r
    case Blocks(bs) =>
      Assoc(Little(|bs|, 4), EncodeBlocks(bs), rest);
      NumberRead(|bs|, 4, EncodeBlocks(bs) + rest);
      BlocksRead(bs, rest);
    case Address(a) => NumberRead(a, 8, rest);
    case Contents(data) => BytesRead(data, rest);
  }

  ghost predicate AllAnswer(rs: seq<Reply>, qs: seq<Request>) {
    |rs| == |qs| && forall i :: 0 <= i < |rs| ==> Answers(rs[i], qs[i])
  }

  /** A client that knows its requests reads its replies back. */
  lemma {:induction false} RepliesRead(qs: seq<Request>, rs: seq<Reply>, rest: seq<byte>)
    requires AllAnswer(rs, qs)
    ensures ReadReplies(qs, EncodeReplies(rs) + rest) == Some((rs, rest))
  {
    if rs == [] {
      assert [] + rest == rest;
    } else {
      Assoc(EncodeReply(rs[0]), EncodeReplies(rs[1..]), rest);
      ReplyRead(qs[0], rs[0], EncodeReplies(rs[1..]) + rest);
      RepliesRead(qs[1..], rs[1..], rest);
      assert [rs[0]] + rs[1..] == rs;
    }
  }
}
