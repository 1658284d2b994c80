/** The server that runs native calls for a client at the other end of a byte stream. */
module NativeServer {
  import opened Sequences
  import opened CStrings
  import opened Wire
  import CCopy

  // ----- What the commands mean -----

  /**
   * The code outside the server. `W` is whatever state it has besides the memory. A call
   * goes through a trampoline and may change all of the memory, but not the server's own
   * tables.
   */
  datatype Platform<!W> = Platform(
    call: (nat, nat, nat, W, seq<byte>) -> (W, seq<byte>),
    alloc: (nat, W, seq<byte>) -> (nat, W, seq<byte>))

  ghost predicate Sane<W(!new)>(p: Platform<W>) {
    && (forall t, f, r, w, m :: |p.call(t, f, r, w, m).1| == |m|)
    && (forall n, w, m :: |p.alloc(n, w, m).2| == |m| && p.alloc(n, w, m).0 < Range(8))
  }

  ghost predicate TableFits(symbols: seq<Block>) {
    |symbols| < 0x8000_0000 && BlocksFit(symbols)
    && forall i :: 0 <= i < |symbols| ==> |symbols[i].data| < 0x8000_0000
  }

  /** The memory after the regions of a call are in place; a later region wins where two overlap. */
  ghost function Loaded(m: seq<byte>, rs: seq<Region>): (r: seq<byte>)
    requires RegionsFit(rs, |m|)
    ensures |r| == |m|
    decreases rs
  {
    if rs == [] then m else Loaded(CCopy.Put(m, rs[0].address, rs[0].data), rs[1..])
  }

  /** What the regions hold. */
  ghost function Held(m: seq<byte>, rs: seq<Region>): (bs: seq<Block>)
    requires RegionsFit(rs, |m|)
    ensures |bs| == |rs|
    ensures forall i :: 0 <= i < |rs| ==>
              bs[i] == Block(m[rs[i].address..rs[i].address + |rs[i].data|], rs[i].address)
  {
    seq(|rs|, i requires 0 <= i < |rs| => Block(m[rs[i].address..rs[i].address + |rs[i].data|], rs[i].address))
  }

  datatype State<W> = State(world: W, mem: seq<byte>)

  ghost function After<W(!new)>(p: Platform<W>, q: Request, s: State<W>): (s': State<W>)
    requires Sane(p) && Fits(q, |s.mem|)
    ensures |s'.mem| == |s.mem|
  {
    match q
    case Invoke(t, f, r, rs) => var (w, m) := p.call(t, f, r, s.world, Loaded(s.mem, rs)); State(w, m)
    case GetSymbolTable => s
    case Alloc(n) => var (_, w, m) := p.alloc(n, s.world, s.mem); State(w, m)
    case SyncRead(_, _) => s
  }

  ghost function ReplyTo<W(!new)>(p: Platform<W>, symbols: seq<Block>, q: Request, s: State<W>): (r: Reply)
    requires Sane(p) && TableFits(symbols) && Fits(q, |s.mem|)
    ensures Answers(r, q)
  {
    match q
    case Invoke(_, _, _, rs) => RangeOfWord(); Blocks(Held(After(p, q, s).mem, rs))
    case GetSymbolTable => Blocks(symbols)
    case Alloc(n) => Address(p.alloc(n, s.world, s.mem).0)
    case SyncRead(a, n) => Contents(s.mem[a..a + n])
  }

  ghost function AfterAll<W(!new)>(p: Platform<W>, qs: seq<Request>, s: State<W>): (s': State<W>)
    requires Sane(p) && AllFit(qs, |s.mem|)
    ensures |s'.mem| == |s.mem|
  {
    if qs == [] then s else AfterAll(p, qs[1..], After(p, qs[0], s))
  }

  ghost function RepliesTo<W(!new)>(p: Platform<W>, symbols: seq<Block>, qs: seq<Request>, s: State<W>): (rs: seq<Reply>)
    requires Sane(p) && TableFits(symbols) && AllFit(qs, |s.mem|)
    ensures AllAnswer(rs, qs)
  {
    if qs == [] then [] else [ReplyTo(p, symbols, qs[0], s)] + RepliesTo(p, symbols, qs[1..], After(p, qs[0], s))
  }

  const BUFFER_SIZE: nat := 8192

  // ----- Bytes that differ -----

  /** The places, in order, where a block does not agree with the memory it is put into. */
  ghost function Differing(m: seq<byte>, d: nat, block: seq<byte>): seq<nat>
    requires d + |block| <= |m|
  {
    if block == [] then []
    else
      var k := |block| - 1;
      Differing(m, d, block[..k]) + (if m[d + k] != block[k] then [d + k] else [])
  }

  /** Every place that differs is listed, and nothing else, once and in order. */
  lemma {:induction false} DifferingIsExact(m: seq<byte>, d: nat, block: seq<byte>)
    requires d + |block| <= |m|
    ensures forall x :: x in Differing(m, d, block) <==> d <= x < d + |block| && m[x] != block[x - d]
    ensures forall i, j :: 0 <= i < j < |Differing(m, d, block)| ==> Differing(m, d, block)[i] < Differing(m, d, block)[j]
  {
    if block != [] {
      DifferingIsExact(m, d, block[..|block| - 1]);
      var before := Differing(m, d, block[..|block| - 1]);
      forall i | 0 <= i < |before| ensures before[i] < d + |block| - 1 {
        assert before[i] in before;
      }
    }
  }

  /** The places where the server itself stores while it receives a region. */
  ghost function StoredFor(m: seq<byte>, r: Region): seq<nat>
    requires RegionFits(r, |m|)
  {
    if r.flag != 0 then Differing(m, r.address, r.data) else []
  }

  ghost function Stored(m: seq<byte>, rs: seq<Region>): seq<nat>
    requires RegionsFit(rs, |m|)
    decreases rs
  {
    if rs == [] then [] else StoredFor(m, rs[0]) + Stored(CCopy.Put(m, rs[0].address, rs[0].data), rs[1..])
  }

  lemma StoresLater(s: seq<nat>, m: seq<byte>, rs: seq<Region>)
    requires rs != [] && RegionsFit(rs, |m|)
    ensures s + Stored(m, rs) == s + StoredFor(m, rs[0]) + Stored(CCopy.Put(m, rs[0].address, rs[0].data), rs[1..])
  {
  }

  /** Putting a block in two parts stores at the same places as putting it at once. */
  lemma {:induction false} DifferingInTwo(m: seq<byte>, d: nat, a: seq<byte>, b: seq<byte>)
    requires d + |a| + |b| <= |m|
    ensures CCopy.Put(CCopy.Put(m, d, a), d + |a|, b) == CCopy.Put(m, d, a + b)
    ensures Differing(m, d, a) + Differing(CCopy.Put(m, d, a), d + |a|, b) == Differing(m, d, a + b)
  {
    PutInTwo(m, d, a, b);
    hide CCopy.Put;
    if b == [] {
      assert a + b == a;
    } else {
      var k := |b| - 1;
      DifferingInTwo(m, d, a, b[..k]);
      assert (a + b)[..|a| + k] == a + b[..k];
      CCopy.PutElsewhere(m, d, a, d + |a| + k);
    }
  }

  lemma PutInTwo(m: seq<byte>, d: nat, a: seq<byte>, b: seq<byte>)
    requires d + |a| + |b| <= |m|
    ensures CCopy.Put(CCopy.Put(m, d, a), d + |a|, b) == CCopy.Put(m, d, a + b)
  {
  }

  /** A block that does not fit the buffer, one buffer later. */
  lemma NextChunk(m: seq<byte>, d: nat, data: seq<byte>, more: seq<byte>) returns (rest: seq<byte>)
    requires d + |data| <= |m| && BUFFER_SIZE <= |data|
    ensures |rest| == |data| - BUFFER_SIZE && data + more == data[..BUFFER_SIZE] + (rest + more)
    ensures CCopy.Put(CCopy.Put(m, d, data[..BUFFER_SIZE]), d + BUFFER_SIZE, rest) == CCopy.Put(m, d, data)
    ensures forall s: seq<nat> :: s + Differing(m, d, data[..BUFFER_SIZE])
              + Differing(CCopy.Put(m, d, data[..BUFFER_SIZE]), d + BUFFER_SIZE, rest) == s + Differing(m, d, data)
  {
    rest := data[BUFFER_SIZE..];
    assert data == data[..BUFFER_SIZE] + rest;
    Assoc(data[..BUFFER_SIZE], rest, more);
    DifferingInTwo(m, d, data[..BUFFER_SIZE], rest);
    var here := Differing(m, d, data[..BUFFER_SIZE]);
    var there := Differing(CCopy.Put(m, d, data[..BUFFER_SIZE]), d + BUFFER_SIZE, rest);
    forall s: seq<nat> ensures s + here + there == s + (here + there) {}
  }

  /** Regions that differ at most in whether the server takes care which bytes it stores. */
  ghost predicate SameButCare(rs: seq<Region>, rs': seq<Region>) {
    |rs| == |rs'| && forall i :: 0 <= i < |rs| ==> rs[i].(flag := 0) == rs'[i].(flag := 0)
  }

  /** Receiving a region through the buffer, and only storing what differs, makes no difference to the memory. */
  lemma {:induction false} CareDoesNotShow(m: seq<byte>, rs: seq<Region>, rs': seq<Region>)
    requires RegionsFit(rs, |m|) && RegionsFit(rs', |m|) && SameButCare(rs, rs')
    ensures Loaded(m, rs) == Loaded(m, rs')
    decreases rs
  {
    if rs != [] {
      assert rs[0].(flag := 0) == rs'[0].(flag := 0);
      CareDoesNotShow(CCopy.Put(m, rs[0].address, rs[0].data), rs[1..], rs'[1..]);
    }
  }

  /** The places where the server itself stores during a session. */
  ghost function StoredIn<W(!new)>(p: Platform<W>, qs: seq<Request>, s: State<W>): seq<nat>
    requires Sane(p) && AllFit(qs, |s.mem|)
  {
    if qs == [] then []
    else StoredBy(qs[0], s.mem) + StoredIn(p, qs[1..], After(p, qs[0], s))
  }

  ghost function StoredBy(q: Request, m: seq<byte>): seq<nat>
    requires Fits(q, |m|)
  {
    if q.Invoke? then Stored(m, q.regions) else []
  }

  // ----- What a session means, from the requests alone -----

  predicate Covers(r: Region, k: nat) {
    r.address <= k < r.address + |r.data|
  }

  /** The memory holds the regions: each byte is that of the last region that covers it, and the bytes
      that no region covers are as before. */
  ghost predicate Holds(before: seq<byte>, rs: seq<Region>, m: seq<byte>) {
    && |m| == |before|
    && (forall i, k :: 0 <= i < |rs| && 0 <= k < |m| && Covers(rs[i], k) && (forall j :: i < j < |rs| ==> !Covers(rs[j], k))
          ==> m[k] == rs[i].data[k - rs[i].address])
    && (forall k :: 0 <= k < |m| && (forall j :: 0 <= j < |rs| ==> !Covers(rs[j], k)) ==> m[k] == before[k])
  }

  /** The blocks are what the memory holds at the regions, in order. */
  ghost predicate AreContents(m: seq<byte>, rs: seq<Region>, bs: seq<Block>) {
    |bs| == |rs| && forall i :: 0 <= i < |rs| ==>
      bs[i].address == rs[i].address && |bs[i].data| == |rs[i].data| && IsAt(m, bs[i].data, rs[i].address)
  }

  ghost predicate IsAt(m: seq<byte>, data: seq<byte>, address: nat) {
    address + |data| <= |m| && forall k :: 0 <= k < |data| ==> data[k] == m[address + k]
  }

  /** From one state to another by these requests: the memory that each call saw, and the replies. */
  ghost predicate Meant<W(!new)>(p: Platform<W>, symbols: seq<Block>, qs: seq<Request>, s: State<W>,
                                 seen: seq<seq<byte>>, replies: seq<Reply>, s': State<W>)
    decreases |qs|
  {
    if qs == [] then seen == [] && replies == [] && s' == s
    else
      && replies != []
      && match qs[0]
         case Invoke(t, f, r, rs) =>
           && seen != []
           && Holds(s.mem, rs, seen[0])
           && var (w, m) := p.call(t, f, r, s.world, seen[0]);
              && replies[0].Blocks? && AreContents(m, rs, replies[0].blocks)
              && Meant(p, symbols, qs[1..], State(w, m), seen[1..], replies[1..], s')
         case GetSymbolTable =>
           replies[0] == Blocks(symbols) && Meant(p, symbols, qs[1..], s, seen, replies[1..], s')
         case Alloc(n) =>
           var (address, w, m) := p.alloc(n, s.world, s.mem);
           replies[0] == Address(address) && Meant(p, symbols, qs[1..], State(w, m), seen, replies[1..], s')
         case SyncRead(a, n) =>
           && replies[0].Contents? && |replies[0].data| == n && IsAt(s.mem, replies[0].data, a)
           && Meant(p, symbols, qs[1..], s, seen, replies[1..], s')
  }

  lemma {:induction false} LoadedHolds(m: seq<byte>, rs: seq<Region>)
    requires RegionsFit(rs, |m|)
    ensures Holds(m, rs, Loaded(m, rs))
    decreases rs
  {
    if rs != [] {
      var w := CCopy.Put(m, rs[0].address, rs[0].data);
      LoadedHolds(w, rs[1..]);
      HoldsFirst(m, w, rs, Loaded(m, rs));
    }
  }

  lemma HoldsFirst(m: seq<byte>, w: seq<byte>, rs: seq<Region>, loaded: seq<byte>)
    requires rs != [] && RegionFits(rs[0], |m|) && w == CCopy.Put(m, rs[0].address, rs[0].data)
    requires Holds(w, rs[1..], loaded)
    ensures Holds(m, rs, loaded)
  {
    var rest := rs[1..];
    forall k | 0 <= k < |m| && (forall j :: 0 < j < |rs| ==> !Covers(rs[j], k))
      ensures loaded[k] == w[k]
    {
      assert forall j :: 0 <= j < |rest| ==> !Covers(rest[j], k) by {
        forall j | 0 <= j < |rest| ensures !Covers(rest[j], k) {
          assert rest[j] == rs[j + 1];
        }
      }
    }
    forall i, k | 0 <= i < |rs| && 0 <= k < |m| && Covers(rs[i], k) && (forall j :: i < j < |rs| ==> !Covers(rs[j], k))
      ensures loaded[k] == rs[i].data[k - rs[i].address]
    {
      if i > 0 {
        assert rest[i - 1] == rs[i];
        assert forall j :: i - 1 < j < |rest| ==> rest[j] == rs[j + 1];
      }
    }
  }

  /** The memory that each call of a session sees. */
  ghost function SeenIn<W(!new)>(p: Platform<W>, qs: seq<Request>, s: State<W>): seq<seq<byte>>
    requires Sane(p) && AllFit(qs, |s.mem|)
  {
    if qs == [] then []
    else (if qs[0].Invoke? then [Loaded(s.mem, qs[0].regions)] else []) + SeenIn(p, qs[1..], After(p, qs[0], s))
  }

  /** The states and replies that the server is proved to produce are those that are meant. */
  lemma {:induction false} SessionIsMeant<W(!new)>(p: Platform<W>, symbols: seq<Block>, qs: seq<Request>, s: State<W>)
    requires Sane(p) && TableFits(symbols) && AllFit(qs, |s.mem|)
    ensures Meant(p, symbols, qs, s, SeenIn(p, qs, s), RepliesTo(p, symbols, qs, s), AfterAll(p, qs, s))
    decreases |qs|
  {
    hide Loaded, Range;
    if qs != [] {
      var q := qs[0];
      var seen, replies := SeenIn(p, qs[1..], After(p, q, s)), RepliesTo(p, symbols, qs[1..], After(p, q, s));
      SessionIsMeant(p, symbols, qs[1..], After(p, q, s));
      assert RepliesTo(p, symbols, qs, s)[1..] == replies;
      if q.Invoke? {
        LoadedHolds(s.mem, q.regions);
        assert SeenIn(p, qs, s)[1..] == seen;
      } else {
        assert SeenIn(p, qs, s) == seen;
      }
    }
  }

  // ----- A platform that keeps a record -----

  datatype Record = Called(trampoline: nat, fptr: nat, retval: nat) | Allocated(size: nat)

  /** A platform whose state is the list of what it was asked to do. */
  function Recorder(): Platform<seq<Record>> {
    Platform((t: nat, f: nat, r: nat, w: seq<Record>, m: seq<byte>) => (w + [Called(t, f, r)], m),
             (n: nat, w: seq<Record>, m: seq<byte>) => (0, w + [Allocated(n)], m))
  }

  /** What the requests ask for, in order. */
  function Asked(qs: seq<Request>): seq<Record> {
    if qs == [] then [] else AskedBy(qs[0]) + Asked(qs[1..])
  }

  function AskedBy(q: Request): seq<Record> {
    match q
    case Invoke(t, f, r, _) => [Called(t, f, r)]
    case Alloc(n) => [Allocated(n)]
    case GetSymbolTable => []
    case SyncRead(_, _) => []
  }

  /** Every call and allocation reaches the platform once, in order, with the arguments of its request. */
  lemma {:induction false} RequestsReachThePlatform(qs: seq<Request>, s: State<seq<Record>>)
    requires Sane(Recorder()) && AllFit(qs, |s.mem|)
    ensures AfterAll(Recorder(), qs, s).world == s.world + Asked(qs)
    decreases |qs|
  {
    if qs != [] {
      var s1 := After(Recorder(), qs[0], s);
      RequestsReachThePlatform(qs[1..], s1);
      AskedFirst(qs[0], s);
      Assoc(s.world, AskedBy(qs[0]), Asked(qs[1..]));
    }
  }

  lemma AskedFirst(q: Request, s: State<seq<Record>>)
    requires Sane(Recorder()) && Fits(q, |s.mem|)
    ensures After(Recorder(), q, s).world == s.world + AskedBy(q)
  {
    assert s.world + [] == s.world;
  }

  lemma RecorderIsSane()
    ensures Sane(Recorder())
  {
  }

  // ----- One turn of the command loop -----

  /** The answer to the last command: a byte for the exit, nothing for an error. */
  function Farewell(e: Ending): seq<byte> {
    if e == Exit then [0] else []
  }

  /** The calls, answered or refused, are the turns with the first opcode. */
  ghost predicate IsCall(c: Turn) {
    match c
    case Next(q) => q.Invoke?
    case Last(e) => e.TooManyRegions?
  }

  ghost function RegionsOf(c: Turn): seq<Region>
    requires IsCall(c)
  {
    if c.Next? then c.q.regions else []
  }

  ghost function HeadOf(c: Turn): (nat, nat, nat, nat)
    requires IsCall(c)
  {
    match c
    case Next(q) => (q.trampoline, q.fptr, q.retval, |q.regions|)
    case Last(e) => (e.trampoline, e.fptr, e.retval, e.count)
  }

  lemma CallSplits(c: Turn, more: seq<byte>)
    requires IsCall(c)
    ensures var (t, f, r, count) := HeadOf(c);
      EncodeTurn(c) + more == [0] + (EncodeCall(t, f, r, count) + (EncodeRegions(RegionsOf(c)) + more))
    ensures var (t, f, r, count) := HeadOf(c);
      |EncodeTurn(c)| == 1 + |EncodeCall(t, f, r, count)| + |EncodeRegions(RegionsOf(c))|
  {
    var (t, f, r, count) := HeadOf(c);
    var head := EncodeCall(t, f, r, count);
    match c
    case Next(q) =>
      Assoc([0], head + EncodeRegions(q.regions), more);
      Assoc(head, EncodeRegions(q.regions), more);
    case Last(e) =>
      Assoc([0], head, more);
      assert [] + more == more;
  }

  // ----- The server -----

  datatype NativeMem = NativeMem(address: nat, size: nat)

  /** The records that the server keeps of the first regions of a call. */
  ghost predicate Recorded(table: seq<NativeMem>, rs: seq<Region>) {
    |rs| <= |table| && forall i :: 0 <= i < |rs| ==> table[i] == NativeMem(rs[i].address, |rs[i].data|)
  }

  lemma NextRecord(table: seq<NativeMem>, rs: seq<Region>, i: nat)
    requires i < |rs| <= |table| && Recorded(table, rs[..i])
    ensures Recorded(table[i := NativeMem(rs[i].address, |rs[i].data|)], rs[..i + 1])
  {
  }

  class Server<W(!new)> {
    const platform: Platform<W>
    const symbols: seq<Block>
    /** The bytes that the client sends, and how many of them have been read. */
    const input: seq<byte>
    var pos: nat
    /** The bytes sent to the client, and how many of them have been flushed. */
    var output: seq<byte>
    var flushed: nat
    var world: W
    var mem: seq<byte>
    const nativeMemory: array<NativeMem>
    const dirtyBuffer: array<byte>
    /** Set when the server has reported an error and stopped. */
    var failed: bool
    /** The places that the server itself has stored to, in order. */
    ghost var stores: seq<nat>

    ghost predicate Valid()
      reads this
    {
      Sane(platform) && TableFits(symbols) && pos <= |input| && flushed <= |output|
      && nativeMemory.Length == NATIVE_MEMORY_SIZE && dirtyBuffer.Length == BUFFER_SIZE
    }

    /** What is still to be read begins with these bytes. */
    ghost predicate Ahead(s: seq<byte>)
      reads this
    {
      pos <= |input| && s <= input[pos..]
    }

    constructor (platform: Platform<W>, symbols: seq<Block>, input: seq<byte>, world: W, mem: seq<byte>)
      requires Sane(platform) && TableFits(symbols)
      ensures Valid() && fresh(nativeMemory) && fresh(dirtyBuffer)
      ensures this.platform == platform && this.symbols == symbols && this.input == input
      ensures pos == 0 && output == [] && flushed == 0 && this.world == world && this.mem == mem
      ensures !failed && stores == []
    {
      this.platform, this.symbols, this.input := platform, symbols, input;
      pos, output, flushed := 0, [], 0;
      this.world, this.mem := world, mem;
      failed, stores := false, [];
      nativeMemory := new NativeMem[NATIVE_MEMORY_SIZE](_ => NativeMem(0, 0));
      dirtyBuffer := new byte[BUFFER_SIZE](_ => 0);
    }

    // ----- Messages -----

    /** Receives exactly `n` bytes. */
    method RecvMessage(n: nat, ghost block: seq<byte>, ghost more: seq<byte>) returns (data: seq<byte>)
      requires Ahead(block + more) && |block| == n
      modifies this`pos
      ensures data == block && Ahead(more) && pos == old(pos) + n
    {
      assert input[pos..][..n] == block && input[pos + n..] == input[pos..][n..];
      data := input[pos..pos + n];
      pos := pos + n;
    }

    /** Receives a number of `n` bytes. */
    method RecvNumber(n: nat, ghost value: nat, ghost more: seq<byte>) returns (v: nat)
      requires Ahead(Little(value, n) + more) && value < Range(n)
      modifies this`pos
      ensures v == value && Ahead(more) && pos == old(pos) + n
    {
      var data := RecvMessage(n, Little(value, n), more);
      NumberOfLittle(value, n);
      v := Number(data);
    }

    /** Receives into the start of the buffer. */
    method RecvIntoBuffer(n: nat, ghost block: seq<byte>, ghost more: seq<byte>)
      requires Ahead(block + more) && |block| == n <= dirtyBuffer.Length
      modifies this`pos, dirtyBuffer
      ensures dirtyBuffer[..n] == block && Ahead(more) && pos == old(pos) + n
    {
      var data := RecvMessage(n, block, more);
      forall i | 0 <= i < n {
        dirtyBuffer[i] := data[i];
      }
    }

    method SendMessage(data: seq<byte>)
      modifies this`output
      ensures output == old(output) + data
    {
      output := output + data;
    }

    // ----- Commands -----

    /** Puts the start of the buffer in place, storing only the bytes that are not there already. */
    method WriteDirty(ptr: nat, len: nat)
      requires len <= BUFFER_SIZE == dirtyBuffer.Length && ptr + len <= |mem|
      modifies this`mem, this`stores
      ensures mem == CCopy.Put(old(mem), ptr, dirtyBuffer[..len])
      ensures stores == old(stores) + Differing(old(mem), ptr, dirtyBuffer[..len])
    {
      CCopy.PutNothing(mem, ptr);
      for i := 0 to len
        invariant mem == CCopy.Put(old(mem), ptr, dirtyBuffer[..i])
        invariant stores == old(stores) + Differing(old(mem), ptr, dirtyBuffer[..i])
      {
        ghost var block := dirtyBuffer[..i];
        assert dirtyBuffer[..i + 1] == block + [dirtyBuffer[i]];
        assert dirtyBuffer[..i + 1][..i] == block;
        CCopy.PutElsewhere(old(mem), ptr, block, ptr + i);
        CCopy.PutOne(old(mem), ptr, block, dirtyBuffer[i]);
        if mem[ptr + i] != dirtyBuffer[i] {
          mem := mem[ptr + i := dirtyBuffer[i]];
          stores := stores + [ptr + i];
        } else {
          assert mem[ptr + i := dirtyBuffer[i]] == mem;
        }
      }
    }

    /** At most one buffer of a region. */
    method RecvChunk(ptr: nat, n: nat, ghost chunk: seq<byte>, ghost more: seq<byte>)
      requires n <= BUFFER_SIZE == dirtyBuffer.Length && ptr + n <= |mem|
      requires Ahead(chunk + more) && |chunk| == n
      modifies this`pos, this`mem, this`stores, dirtyBuffer
      ensures mem == CCopy.Put(old(mem), ptr, chunk)
      ensures stores == old(stores) + Differing(old(mem), ptr, chunk)
      ensures Ahead(more) && pos == old(pos) + n
    {
      RecvIntoBuffer(n, chunk, more);
      WriteDirty(ptr, n);
    }

    /** A region that is received a buffer at a time. */
    method RecvDirty(address: nat, len: nat, ghost data: seq<byte>, ghost more: seq<byte>)
      requires dirtyBuffer.Length == BUFFER_SIZE && address + len <= |mem|
      requires Ahead(data + more) && |data| == len
      modifies this`pos, this`mem, this`stores, dirtyBuffer
      ensures mem == CCopy.Put(old(mem), address, data)
      ensures stores == old(stores) + Differing(old(mem), address, data)
      ensures Ahead(more) && pos == old(pos) + len
    {
      var remaining, ptr := len, address;
      ghost var rest := data;
      while remaining > BUFFER_SIZE
        invariant 0 <= remaining == |rest| && ptr + remaining == address + len
        invariant pos + remaining == old(pos) + len && Ahead(rest + more)
        invariant |mem| == |old(mem)| && CCopy.Put(mem, ptr, rest) == CCopy.Put(old(mem), address, data)
        invariant stores + Differing(mem, ptr, rest) == old(stores) + Differing(old(mem), address, data)
      {
        ghost var chunk := rest[..BUFFER_SIZE];
        rest := NextChunk(mem, ptr, rest, more);
        RecvChunk(ptr, BUFFER_SIZE, chunk, rest + more);
        remaining := remaining - BUFFER_SIZE;
        ptr := ptr + BUFFER_SIZE;
      }
      RecvChunk(ptr, remaining, rest, more);
    }

    /** A length, that many bytes, and the address that belongs to them. */
    method SendBlock(len: nat, data: seq<byte>, address: nat)
      requires len == |data|
      modifies this`output
      ensures output == old(output) + EncodeBlock(Block(data, address))
    {
      SendMessage(Little(len, 4));
      SendMessage(data);
      SendMessage(Little(address, 8));
    }

    /** One region of a call. */
    method RecvRegion(i: nat, ghost r: Region, ghost more: seq<byte>)
      requires dirtyBuffer.Length == BUFFER_SIZE && i < nativeMemory.Length
      requires RegionFits(r, |mem|) && Ahead(EncodeRegion(r) + more)
      modifies this`pos, this`mem, this`stores, dirtyBuffer, nativeMemory
      ensures mem == CCopy.Put(old(mem), r.address, r.data)
      ensures stores == old(stores) + StoredFor(old(mem), r)
      ensures Ahead(more) && pos == old(pos) + |EncodeRegion(r)|
      ensures nativeMemory[..] == old(nativeMemory[..])[i := NativeMem(r.address, |r.data|)]
    {
      RegionUnfolds(r, more);
      ghost var body := Little(|r.data|, 4) + (r.data + more);
      var address := RecvNumber(8, r.address, [r.flag] + body);
      var isDirty := RecvMessage(1, [r.flag], body);
      var len := RecvNumber(4, |r.data|, r.data + more);
      nativeMemory[i] := NativeMem(address, len);
      if isDirty[0] != 0 {
        RecvDirty(address, len, r.data, more);
      } else {
        var data := RecvMessage(len, r.data, more);
        mem := mem[..address] + data + mem[address + len..];
      }
    }

    /** The regions of a call, as they lie in memory now. */
    method SendRegions(n: nat, ghost rs: seq<Region>)
      requires n == |rs| && Recorded(nativeMemory[..], rs) && RegionsFit(rs, |mem|)
      modifies this`output
      ensures output == old(output) + EncodeBlocks(Held(mem, rs))
    {
      ghost var blocks := Held(mem, rs);
      ghost var rest := blocks;
      for i := 0 to n
        invariant rest == blocks[i..]
        invariant output + EncodeBlocks(rest) == old(output) + EncodeBlocks(blocks)
      {
        var record := nativeMemory[i];
        assert record == nativeMemory[..][i] && rest[0] == blocks[i];
        Assoc(output, EncodeBlock(rest[0]), EncodeBlocks(rest[1..]));
        SendBlock(record.size, mem[record.address..record.address + record.size], record.address);
        rest := rest[1..];
      }
      assert output + [] == output;
    }

    method GetSymbols()
      requires Valid()
      modifies this`output
      ensures output == old(output) + EncodeReply(Blocks(symbols))
    {
      var nsymbols := |symbols|;
      SendMessage(Little(nsymbols, 4));
      ghost var rest := symbols;
      Assoc(old(output), Little(nsymbols, 4), EncodeBlocks(symbols));
      for i := 0 to nsymbols
        invariant rest == symbols[i..]
        invariant output + EncodeBlocks(rest) == old(output) + EncodeReply(Blocks(symbols))
      {
        var sym := symbols[i];
        assert rest[0] == sym;
        Assoc(output, EncodeBlock(sym), EncodeBlocks(rest[1..]));
        SendBlock(|sym.data|, sym.data, sym.address);
        rest := rest[1..];
      }
      assert output + [] == output;
    }

    /** A call, up to its reply; or, when it asks for too many regions, up to the error. */
    method InvokeCall(ghost t: nat, ghost f: nat, ghost r: nat, ghost count: nat, ghost rs: seq<Region>, ghost more: seq<byte>)
      requires Valid() && CallFits(t, f, r) && count < Range(4) && RegionsFit(rs, |mem|) && !failed
      requires |rs| == if count <= NATIVE_MEMORY_SIZE then count else 0
      requires Ahead(EncodeCall(t, f, r, count) + (EncodeRegions(rs) + more))
      modifies this`pos, this`output, this`world, this`mem, this`stores, this`failed, dirtyBuffer, nativeMemory
      ensures Valid() && Ahead(more)
      ensures pos == old(pos) + |EncodeCall(t, f, r, count)| + |EncodeRegions(rs)|
      ensures failed == (count > NATIVE_MEMORY_SIZE)
      ensures stores == old(stores) + Stored(old(mem), rs)
      ensures failed ==> State(world, mem) == old(State(world, mem)) && output == old(output)
      ensures !failed ==> State(world, mem) == After(platform, Invoke(t, f, r, rs), old(State(world, mem)))
      ensures !failed ==>
                output == old(output) + EncodeReply(ReplyTo(platform, symbols, Invoke(t, f, r, rs), old(State(world, mem))))
    {
      var trampoline, fptr, retval, len := RecvCall(t, f, r, count, EncodeRegions(rs) + more);
      if len > NATIVE_MEMORY_SIZE {
        assert [] + more == more;
        failed := true;
        return;
      }
      RecvRegions(len, rs, more);
      CallAndReply(trampoline, fptr, retval, len, rs);
    }

    /** What a call starts with. */
    method RecvCall(ghost t: nat, ghost f: nat, ghost r: nat, ghost count: nat, ghost more: seq<byte>)
      returns (trampoline: nat, fptr: nat, retval: nat, len: nat)
      requires CallFits(t, f, r) && count < Range(4) && Ahead(EncodeCall(t, f, r, count) + more)
      modifies this`pos
      ensures trampoline == t && fptr == f && retval == r && len == count
      ensures Ahead(more) && pos == old(pos) + |EncodeCall(t, f, r, count)|
    {
      CallUnfolds(t, f, r, count, more);
      ghost var tail := Little(count, 4) + more;
      trampoline := RecvNumber(8, t, Little(f, 8) + (Little(r, 8) + tail));
      fptr := RecvNumber(8, f, Little(r, 8) + tail);
      retval := RecvNumber(8, r, tail);
      len := RecvNumber(4, count, more);
    }

    /** All the regions of a call. */
    method RecvRegions(n: nat, ghost rs: seq<Region>, ghost more: seq<byte>)
      requires Valid() && n == |rs| <= NATIVE_MEMORY_SIZE && RegionsFit(rs, |mem|)
      requires Ahead(EncodeRegions(rs) + more)
      modifies this`pos, this`mem, this`stores, dirtyBuffer, nativeMemory
      ensures Valid() && Ahead(more) && pos == old(pos) + |EncodeRegions(rs)|
      ensures mem == Loaded(old(mem), rs) && Recorded(nativeMemory[..], rs)
      ensures stores == old(stores) + Stored(old(mem), rs)
    {
      ghost var rest := rs;
      assert stores + Stored(mem, rest) == old(stores) + Stored(old(mem), rs);
      for i := 0 to n
        invariant Valid() && rest == rs[i..] && |mem| == |old(mem)| && RegionsFit(rest, |mem|)
        invariant Ahead(EncodeRegions(rest) + more)
        invariant pos + |EncodeRegions(rest)| == old(pos) + |EncodeRegions(rs)|
        invariant Loaded(mem, rest) == Loaded(old(mem), rs) && Recorded(nativeMemory[..], rs[..i])
        invariant stores + Stored(mem, rest) == old(stores) + Stored(old(mem), rs)
      {
        ghost var r, later := rest[0], rest[1..];
        Assoc(EncodeRegion(r), EncodeRegions(later), more);
        StoresLater(stores, mem, rest);
        NextRecord(nativeMemory[..], rs, i);
        RecvRegion(i, r, EncodeRegions(later) + more);
        rest := later;
      }
      assert rs[..n] == rs;
      assert [] + more == more && stores + [] == stores;
    }

    method CallAndReply(trampoline: nat, fptr: nat, retval: nat, n: nat, ghost rs: seq<Region>)
      requires Valid() && n == |rs| && RegionsFit(rs, |mem|) && Recorded(nativeMemory[..], rs)
      modifies this`output, this`world, this`mem
      ensures Valid() && (world, mem) == platform.call(trampoline, fptr, retval, old(world), old(mem))
      ensures output == old(output) + EncodeReply(Blocks(Held(mem, rs)))
    {
      var (w, m) := platform.call(trampoline, fptr, retval, world, mem);
      world, mem := w, m;
      SendMessage(Little(n, 4));
      SendRegions(n, rs);
      Assoc(old(output), Little(n, 4), EncodeBlocks(Held(mem, rs)));
    }
  
    method AllocMemory(ghost size: nat, ghost more: seq<byte>)
      requires Valid() && size < Range(8) && Ahead(Little(size, 8) + more)
      modifies this`pos, this`output, this`world, this`mem
      ensures Valid() && Ahead(more) && pos == old(pos) + 8
      ensures State(world, mem) == After(platform, Alloc(size), old(State(world, mem)))
      ensures output == old(output) + EncodeReply(ReplyTo(platform, symbols, Alloc(size), old(State(world, mem))))
    {
      var n := RecvNumber(8, size, more);
      var (address, w, m) := platform.alloc(n, world, mem);
      world, mem := w, m;
      SendMessage(Little(address, 8));
    }

    method ReadMemory(ghost a: nat, ghost n: nat, ghost more: seq<byte>)
      requires Valid() && Fits(SyncRead(a, n), |mem|) && Ahead(Little(a, 8) + Little(n, 4) + more)
      modifies this`pos, this`output
      ensures Valid() && Ahead(more) && pos == old(pos) + 12
      ensures output == old(output) + mem[a..a + n]
    {
      RangeOfWord();
      Assoc(Little(a, 8), Little(n, 4), more);
      var address := RecvNumber(8, a, Little(n, 4) + more);
      var size := RecvNumber(4, n, more);
      SendMessage(mem[address..address + size]);
    }

    // ----- The command loop -----

    /** One turn of the loop, up to the flush. */
    method Command(ghost c: Turn, ghost more: seq<byte>) returns (exited: bool)
      requires Valid() && TurnFits(c, |mem|) && !failed
      requires Ahead(EncodeTurn(c) + more)
      modifies this`pos, this`output, this`world, this`mem, this`stores, this`failed, dirtyBuffer, nativeMemory
      ensures Valid() && Ahead(more) && pos == old(pos) + |EncodeTurn(c)|
      ensures exited == (c == Last(Exit)) && failed == (c.Last? && c.e != Exit)
      ensures State(world, mem) == if c.Next? then After(platform, c.q, old(State(world, mem))) else old(State(world, mem))
      ensures stores == old(stores) + if c.Next? then StoredBy(c.q, old(mem)) else []
      ensures output == old(output) + match c
                                      case Next(q) => EncodeReply(ReplyTo(platform, symbols, q, old(State(world, mem))))
                                      case Last(e) => Farewell(e)
    {
      RangeOfWord();
      hide Little, Range, Loaded, Held, EncodeBlocks, EncodeRegions;
      assert stores + [] == stores && output + [] == output;
      ghost var parameters := EncodeTurn(c)[1..];
      AfterOpcode(c, more);
      var opcode := RecvMessage(1, EncodeTurn(c)[..1], parameters + more);
      exited := false;
      match opcode[0]
      case 0 =>
        InvokeTurn(c, more);
      case 1 =>
        assert parameters + more == more;
        GetSymbols();
      case 2 =>
        assert parameters == Little(c.q.size, 8);
        AllocMemory(c.q.size, more);
      case 3 =>
        assert parameters == Little(c.q.address, 8) + Little(c.q.size, 4);
        ReadMemory(c.q.address, c.q.size, more);
      case 4 =>
        assert parameters + more == more;
        SendMessage([0]);
        exited := true;
      case _ =>
        assert parameters + more == more;
        failed := true;
    }

    method InvokeTurn(ghost c: Turn, ghost more: seq<byte>)
      requires Valid() && TurnFits(c, |mem|) && IsCall(c) && !failed
      requires Ahead(EncodeTurn(c)[1..] + more)
      modifies this`pos, this`output, this`world, this`mem, this`stores, this`failed, dirtyBuffer, nativeMemory
      ensures Valid() && Ahead(more) && pos == old(pos) + |EncodeTurn(c)| - 1
      ensures failed == c.Last?
      ensures State(world, mem) == if c.Next? then After(platform, c.q, old(State(world, mem))) else old(State(world, mem))
      ensures stores == old(stores) + Stored(old(mem), RegionsOf(c))
      ensures output == old(output) + if c.Last? then []
                                      else EncodeReply(ReplyTo(platform, symbols, c.q, old(State(world, mem))))
    {
      RangeOfWord();
      ghost var (t, f, r, count) := HeadOf(c);
      ghost var rs := RegionsOf(c);
      AfterOpcode(c, more);
      CallSplits(c, more);
      ghost var call := EncodeCall(t, f, r, count) + (EncodeRegions(rs) + more);
      assert ([0] + call)[1..] == call;
      assert output + [] == output;
      InvokeCall(t, f, r, count, rs, more);
    }
  
    /** What will have been sent, in what state the machine will be, and what will have been stored, after these requests. */
    ghost function Outlook(qs: seq<Request>): (seq<byte>, State<W>, seq<nat>)
      reads this
      requires Valid() && AllFit(qs, |mem|)
    {
      var s := State(world, mem);
      (output + EncodeReplies(RepliesTo(platform, symbols, qs, s)), AfterAll(platform, qs, s), stores + StoredIn(platform, qs, s))
    }

    /** Between two turns of the loop: these requests and the ending are still to come. */
    ghost predicate Expects(qs: seq<Request>, e: Ending, more: seq<byte>)
      reads this
    {
      Valid() && !failed && flushed == |output| && AllFit(qs, |mem|) && EndingFits(e)
      && Ahead(EncodeAll(qs) + (EncodeEnding(e) + more))
    }

    /** One turn of the loop, with its flush: the next request, or else the ending. */
    method FlushedTurn(ghost qs: seq<Request>, ghost e: Ending, ghost more: seq<byte>) returns (exited: bool)
      requires Expects(qs, e, more)
      modifies this`pos, this`output, this`flushed, this`world, this`mem, this`stores, this`failed, dirtyBuffer, nativeMemory
      ensures qs != [] ==> Expects(qs[1..], e, more) && !exited
      ensures qs != [] ==> pos + |EncodeAll(qs[1..])| == old(pos) + |EncodeAll(qs)|
      ensures qs != [] ==> Outlook(qs[1..]) == old(Outlook(qs))
      ensures qs == [] ==> Valid() && Ahead(more) && pos == old(pos) + |EncodeEnding(e)|
      ensures qs == [] ==> exited == (e == Exit) == !failed && flushed == |output|
      ensures qs == [] ==> (output, State(world, mem), stores) == (old(output) + Farewell(e), old(State(world, mem)), old(stores))
    {
      NextTurn(qs, e, more);
      hide Little, Range, Loaded, Held, EncodeBlocks, EncodeRegions, Stored, Encode, EncodeEnding;
      ghost var turn := Last(e);
      ghost var later := more;
      if qs != [] {
        RepliesLater(platform, symbols, output, qs, State(world, mem));
        StoresNext(platform, stores, qs, State(world, mem));
        turn, later := Next(qs[0]), EncodeAll(qs[1..]) + (EncodeEnding(e) + more);
      } else {
        assert stores + [] == stores;
      }
      exited := Command(turn, later);
      if !failed {
        flushed := |output|;
      }
    }

    /**
     * A whole session. The requests laid end to end are carried out one after the other,
     * with the cursor on an opcode before each; every reply is sent and flushed before the
     * next request is read; and nothing that follows the last command is read.
     */
    method Run(ghost qs: seq<Request>, ghost e: Ending, ghost more: seq<byte>) returns (ghost cursors: seq<nat>)
      requires Expects(qs, e, more)
      modifies this`pos, this`output, this`flushed, this`world, this`mem, this`stores, this`failed, dirtyBuffer, nativeMemory
      ensures Valid() && Ahead(more) && pos == old(pos) + |EncodeAll(qs)| + |EncodeEnding(e)|
      ensures State(world, mem) == AfterAll(platform, qs, old(State(world, mem)))
      ensures output == old(output) + EncodeReplies(RepliesTo(platform, symbols, qs, old(State(world, mem)))) + Farewell(e)
      ensures stores == old(stores) + StoredIn(platform, qs, old(State(world, mem)))
      ensures Meant(platform, symbols, qs, old(State(world, mem)), SeenIn(platform, qs, old(State(world, mem))),
                    RepliesTo(platform, symbols, qs, old(State(world, mem))), State(world, mem))
      ensures flushed == |output| && failed == (e != Exit)
      ensures |cursors| == |qs| + 1 && OnOpcodes(cursors, qs, old(pos))
    {
      SessionIsMeant(platform, symbols, qs, State(world, mem));
      hide Meant, SeenIn;
      ghost var rest := qs;
      cursors := [];
      while true
        invariant |cursors| <= |qs| && rest == qs[|cursors|..] && Expects(rest, e, more)
        invariant pos + |EncodeAll(rest)| == old(pos) + |EncodeAll(qs)|
        invariant OnOpcodes(cursors, qs, old(pos))
        invariant Outlook(rest) == old(Outlook(qs))
        decreases |rest|
      {
        cursors := OneMore(cursors, qs, old(pos), pos);
        if rest == [] {
          LastOutlook();
        }
        var exited := FlushedTurn(rest, e, more);
        if exited || failed {
          break;
        }
        rest := rest[1..];
      }
    }

    lemma LastOutlook()
      requires Valid()
      ensures Outlook([]) == (output, State(world, mem), stores)
    {
      assert output + [] == output && stores + [] == stores;
    }
  }

  /** The cursor has been moved over exactly the first k requests. */
  ghost predicate OnOpcode(cursor: nat, qs: seq<Request>, k: nat, start: nat)
    requires k <= |qs|
  {
    cursor + |EncodeAll(qs[k..])| == start + |EncodeAll(qs)|
  }

  /** The k-th of these cursors has the first k requests behind it. */
  ghost predicate OnOpcodes(cursors: seq<nat>, qs: seq<Request>, start: nat) {
    forall k :: 0 <= k < |cursors| && k <= |qs| ==> OnOpcode(cursors[k], qs, k, start)
  }

  lemma OneMore(cursors: seq<nat>, qs: seq<Request>, start: nat, pos: nat) returns (cursors': seq<nat>)
    requires |cursors| <= |qs| && OnOpcodes(cursors, qs, start) && OnOpcode(pos, qs, |cursors|, start)
    ensures cursors' == cursors + [pos] && OnOpcodes(cursors', qs, start)
  {
    cursors' := cursors + [pos];
  }

  lemma NextTurn(qs: seq<Request>, e: Ending, more: seq<byte>)
    ensures var all := EncodeAll(qs) + (EncodeEnding(e) + more);
      all == if qs == [] then EncodeTurn(Last(e)) + more
             else EncodeTurn(Next(qs[0])) + (EncodeAll(qs[1..]) + (EncodeEnding(e) + more))
  {
    if qs == [] {
      assert [] + (EncodeEnding(e) + more) == EncodeEnding(e) + more;
    } else {
      Assoc(Encode(qs[0]), EncodeAll(qs[1..]), EncodeEnding(e) + more);
    }
  }

  lemma RepliesLater<W(!new)>(p: Platform<W>, symbols: seq<Block>, out: seq<byte>, qs: seq<Request>, s: State<W>)
    requires Sane(p) && TableFits(symbols) && qs != [] && AllFit(qs, |s.mem|)
    ensures out + EncodeReplies(RepliesTo(p, symbols, qs, s))
         == out + EncodeReply(ReplyTo(p, symbols, qs[0], s)) + EncodeReplies(RepliesTo(p, symbols, qs[1..], After(p, qs[0], s)))
  {
    var first, later := ReplyTo(p, symbols, qs[0], s), RepliesTo(p, symbols, qs[1..], After(p, qs[0], s));
    assert ([first] + later)[1..] == later;
    Assoc(out, EncodeReply(first), EncodeReplies(later));
  }

  lemma StoresNext<W(!new)>(p: Platform<W>, stores: seq<nat>, qs: seq<Request>, s: State<W>)
    requires Sane(p) && qs != [] && AllFit(qs, |s.mem|)
    ensures stores + StoredIn(p, qs, s)
         == stores + StoredBy(qs[0], s.mem) + StoredIn(p, qs[1..], After(p, qs[0], s))
  {
  }
}
