/**
 The congestion validator: a cache of block headers whose hashes were checked against the chain,
 and the count of distinct uncongested blocks among the headers of a block reference.
 */
module Congestion {
  import opened Prelude
  import opened Encoding

  /** The decoded fields of a block header that the validator reads. */
  datatype RawHeader = RawHeader(number: uint256, gasLimit: uint256, gasUsed: uint256)

  /** A mined block; its number is its position in the chain. */
  datatype Block = Block(rlp: Bytes, gasLimit: uint256, gasUsed: uint256)

  /** The hash function and the header decoding; decoding None is a revert inside the RLP library. */
  datatype Codec = Codec(keccak: Bytes -> nat, decode: Bytes -> Option<RawHeader>)

  datatype Header = Header(blockHash: nat, gasFree: uint256, gasLimit: uint256, gasUsed: uint256, number: uint256)

  type Cache = map<nat, Header>

  // ---------------------------------------------------------------- one header

  function ParseHeader(c: Codec, item: Bytes): Option<Header> {
    match c.decode(item)
    case None => None
    case Some(f) =>
      Some(Header(c.keccak(item), (f.gasLimit - f.gasUsed) % TWO_256, f.gasLimit, f.gasUsed, f.number))
  }

  /** The EVM's blockhash: zero outside the last 256 blocks. The block being executed is number |chain|. */
  function BlockHash(c: Codec, chain: seq<Block>, number: nat): nat {
    if |chain| - 256 <= number < |chain| then c.keccak(chain[number].rlp) else 0
  }

  predicate InWindow(chain: seq<Block>, number: nat) {
    number < |chain| && number + 256 > |chain|
  }

  function CachedHash(cache: Cache, number: nat): nat {
    if number in cache then cache[number].blockHash else 0
  }

  function CachedFree(cache: Cache, number: nat): nat {
    if number in cache then cache[number].gasFree else 0
  }

  // ---------------------------------------------------------------- a list of headers

  datatype Scan = Scan(cache: Cache, accepted: seq<nat>)

  function ScanOne(c: Codec, chain: seq<Block>, s: Scan, item: Bytes): Option<Scan> {
    match ParseHeader(c, item)
    case None => None
    case Some(h) =>
      if CachedHash(s.cache, h.number) == 0 then
        if !InWindow(chain, h.number) then None
        else if h.blockHash == BlockHash(c, chain, h.number) then
          Some(Scan(s.cache[h.number := h], s.accepted + [h.number]))
        else Some(s)
      else if h.blockHash == CachedHash(s.cache, h.number) then
        Some(s.(accepted := s.accepted + [h.number]))
      else Some(s)
  }

  /** validateRLPHeaders over a whole list; None is a revert. */
  function ScanAll(c: Codec, chain: seq<Block>, cache: Cache, items: seq<Bytes>): Option<Scan> {
    if items == [] then Some(Scan(cache, []))
    else
      match ScanAll(c, chain, cache, items[..|items| - 1])
      case None => None
      case Some(s) => ScanOne(c, chain, s, items[|items| - 1])
  }

  /** The accepted numbers that count, without repetition. */
  function Counted(s: Scan, minGasFree: nat, minBlock: nat): set<nat> {
    set n | n in s.accepted && n >= minBlock && CachedFree(s.cache, n) >= minGasFree
  }

  /** numBlocksUncongested: the count and the cache it leaves behind. */
  function Uncongested(c: Codec, chain: seq<Block>, cache: Cache, items: seq<Bytes>, minGasFree: nat, minBlock: nat)
    : Option<(nat, Cache)>
  {
    if minBlock > |chain| then Some((0, cache))
    else
      match ScanAll(c, chain, cache, items)
      case None => None
      case Some(s) => Some((|Counted(s, minGasFree, minBlock)|, s.cache))
  }

  // ---------------------------------------------------------------- agreement with the chain

  function RealHeader(c: Codec, chain: seq<Block>, n: nat): Header
    requires n < |chain| < TWO_256
  {
    var b := chain[n];
    Header(c.keccak(b.rlp), (b.gasLimit - b.gasUsed) % TWO_256, b.gasLimit, b.gasUsed, n)
  }

  ghost predicate CollisionFree(c: Codec) {
    forall x, y {:trigger c.keccak(x), c.keccak(y)} :: c.keccak(x) == c.keccak(y) ==> x == y
  }

  /** What a well-formed block decodes to: its own number and gas figures. */
  predicate WellFormed(c: Codec, b: Block, number: nat) {
    && c.decode(b.rlp).Some?
    && c.decode(b.rlp).value.number == number
    && c.decode(b.rlp).value.gasLimit == b.gasLimit
    && c.decode(b.rlp).value.gasUsed == b.gasUsed
    && b.gasUsed <= b.gasLimit
    && c.keccak(b.rlp) != 0
  }

  ghost predicate ChainOk(c: Codec, chain: seq<Block>) {
    && |chain| < TWO_256
    && forall n {:trigger chain[n]} :: 0 <= n < |chain| ==> WellFormed(c, chain[n], n)
  }

  /** Every cached header is the header of the real block of that number. */
  ghost predicate Agrees(c: Codec, chain: seq<Block>, cache: Cache) {
    && |chain| < TWO_256
    && forall n {:trigger n in cache} :: n in cache ==> n < |chain| && cache[n] == RealHeader(c, chain, n)
  }

  /** A list entry that is the encoding of a real block. */
  predicate Genuine(c: Codec, chain: seq<Block>, item: Bytes) {
    && c.decode(item).Some?
    && c.decode(item).value.number < |chain|
    && c.keccak(item) == c.keccak(chain[c.decode(item).value.number].rlp)
  }

  /** A list entry that can be judged now: its number is cached or its hash is still available. */
  predicate Judgeable(c: Codec, chain: seq<Block>, cache: Cache, item: Bytes) {
    && c.decode(item).Some?
    && (c.decode(item).value.number in cache || InWindow(chain, c.decode(item).value.number))
  }

  function GenuineNumbers(c: Codec, chain: seq<Block>, items: seq<Bytes>): set<nat> {
    set item | item in items && Genuine(c, chain, item) :: c.decode(item).value.number
  }

  lemma GenuineNumbersSnoc(c: Codec, chain: seq<Block>, items: seq<Bytes>, item: Bytes)
    ensures GenuineNumbers(c, chain, items + [item]) ==
            GenuineNumbers(c, chain, items) + if Genuine(c, chain, item) then {c.decode(item).value.number} else {}
  {
    assert forall x :: x in items + [item] <==> x in items || x == item;
  }

  function Elements(s: seq<nat>): set<nat> {
    set n | n in s
  }

  /** The outcome of scanning a list: the accepted numbers are those of the genuine entries, the cache grew by
      exactly those, kept every old entry, and still agrees with the chain. */
  ghost predicate Scanned(c: Codec, chain: seq<Block>, cache: Cache, items: seq<Bytes>, s: Scan) {
    && Agrees(c, chain, s.cache)
    && (forall m {:trigger m in s.cache} :: m in cache ==> m in s.cache && s.cache[m] == cache[m])
    && (forall m {:trigger m in s.cache} :: m in s.cache && m !in cache ==> InWindow(chain, m))
    && s.cache.Keys == cache.Keys + GenuineNumbers(c, chain, items)
    && Elements(s.accepted) == GenuineNumbers(c, chain, items)
  }

  lemma ScannedMore(c: Codec, chain: seq<Block>, cache: Cache, front: seq<Bytes>, s: Scan, item: Bytes, s': Scan)
    requires Scanned(c, chain, cache, front, s) && Genuine(c, chain, item) && Agrees(c, chain, s'.cache)
    requires var n := c.decode(item).value.number;
             && (n in cache || InWindow(chain, n))
             && s'.accepted == s.accepted + [n] && s'.cache.Keys == s.cache.Keys + {n}
             && forall m :: m in s.cache ==> m in s'.cache && s'.cache[m] == s.cache[m]
    ensures Scanned(c, chain, cache, front + [item], s')
  {
    var n := c.decode(item).value.number;
    GenuineNumbersSnoc(c, chain, front, item);
    forall m {:trigger m in s'.cache} | m in cache ensures m in s'.cache && s'.cache[m] == cache[m] {
      assert m in s.cache.Keys;
    }
    forall m {:trigger m in s'.cache} | m in s'.cache && m !in cache ensures InWindow(chain, m) {
      assert m in s'.cache.Keys;
    }
  }

  lemma ScannedSnoc(c: Codec, chain: seq<Block>, cache: Cache, front: seq<Bytes>, s: Scan, item: Bytes)
    requires CollisionFree(c) && ChainOk(c, chain) && Scanned(c, chain, cache, front, s)
    ensures ScanOne(c, chain, s, item).Some? <==> Judgeable(c, chain, cache, item)
    ensures ScanOne(c, chain, s, item).Some? ==>
              Scanned(c, chain, cache, front + [item], ScanOne(c, chain, s, item).value)
  {
    if c.decode(item).Some? {
      var n := c.decode(item).value.number;
      assert n in s.cache ==> n in s.cache.Keys;
      if Judgeable(c, chain, cache, item) {
        if Genuine(c, chain, item) {
          ScannedMore(c, chain, cache, front, s, item, ScanOne(c, chain, s, item).value);
        } else {
          GenuineNumbersSnoc(c, chain, front, item);
        }
      }
    }
  }

  /** A header can be judged for the first time exactly in the 255 blocks after its own; its real hash is then still
      available, and that of one block more. */
  lemma WindowExact(c: Codec, chain: seq<Block>, number: nat)
    requires ChainOk(c, chain)
    ensures InWindow(chain, number) <==> 1 <= |chain| - number <= 255
    ensures InWindow(chain, number) || |chain| - number == 256 ==>
              BlockHash(c, chain, number) == c.keccak(chain[number].rlp) != 0
    ensures |chain| - number <= 0 || |chain| - number > 256 ==> BlockHash(c, chain, number) == 0
  {
  }

  /** A list is accepted exactly when each of its entries can be judged. */
  lemma {:induction false} ScanExact(c: Codec, chain: seq<Block>, cache: Cache, items: seq<Bytes>)
    requires CollisionFree(c) && ChainOk(c, chain) && Agrees(c, chain, cache)
    ensures ScanAll(c, chain, cache, items).Some? <==> forall item | item in items :: Judgeable(c, chain, cache, item)
    ensures ScanAll(c, chain, cache, items).Some? ==>
              Scanned(c, chain, cache, items, ScanAll(c, chain, cache, items).value)
  {
    if items != [] {
      var front, last := items[..|items| - 1], items[|items| - 1];
      assert items == front + [last];
      ScanExact(c, chain, cache, front);
      assert forall x :: x in items <==> x in front || x == last;
      if ScanAll(c, chain, cache, front).Some? {
        ScannedSnoc(c, chain, cache, front, ScanAll(c, chain, cache, front).value, last);
      }
    }
  }

  /** The real blocks among the entries that are recent enough and had enough gas left. */
  ghost function RealUncongested(c: Codec, chain: seq<Block>, items: seq<Bytes>, minGasFree: nat,
                                 minBlock: nat): set<nat> {
    set n | n in GenuineNumbers(c, chain, items) && minBlock <= n < |chain|
            && chain[n].gasLimit - chain[n].gasUsed >= minGasFree
  }

  lemma CountedIsReal(c: Codec, chain: seq<Block>, cache: Cache, items: seq<Bytes>, s: Scan, minGasFree: nat,
                      minBlock: nat)
    requires ChainOk(c, chain) && Scanned(c, chain, cache, items, s)
    ensures Counted(s, minGasFree, minBlock) == RealUncongested(c, chain, items, minGasFree, minBlock)
  {
    forall n | n in Elements(s.accepted)
      ensures n < |chain| && CachedFree(s.cache, n) == chain[n].gasLimit - chain[n].gasUsed
    {
      assert n in s.cache.Keys;
    }
    assert forall n :: n in s.accepted <==> n in Elements(s.accepted);
  }

  /** The count is the number of distinct real blocks at or after the minimum with enough free gas. */
  lemma CountExact(c: Codec, chain: seq<Block>, cache: Cache, items: seq<Bytes>, minGasFree: nat, minBlock: nat)
    requires CollisionFree(c) && ChainOk(c, chain) && Agrees(c, chain, cache)
    requires Uncongested(c, chain, cache, items, minGasFree, minBlock).Some?
    ensures var (count, cache') := Uncongested(c, chain, cache, items, minGasFree, minBlock).value;
            && count == |RealUncongested(c, chain, items, minGasFree, minBlock)|
            && Agrees(c, chain, cache')
            && (forall m :: m in cache ==> m in cache' && cache'[m] == cache[m])
  {
    if minBlock <= |chain| {
      ScanExact(c, chain, cache, items);
      var s := ScanAll(c, chain, cache, items).value;
      CountedIsReal(c, chain, cache, items, s, minGasFree, minBlock);
    } else {
      assert RealUncongested(c, chain, items, minGasFree, minBlock) == {};
    }
  }

  /** Order, repetition and the state of the cache do not matter: two lists with the same entries, judged with any
      two caches that agree with the chain, give the same count; with the same cache they also revert alike. */
  lemma CountDependsOnEntriesOnly(c: Codec, chain: seq<Block>, cache1: Cache, cache2: Cache, items1: seq<Bytes>,
                                  items2: seq<Bytes>, minGasFree: nat, minBlock: nat)
    requires CollisionFree(c) && ChainOk(c, chain) && Agrees(c, chain, cache1) && Agrees(c, chain, cache2)
    requires forall item :: item in items1 <==> item in items2
    ensures var r1 := Uncongested(c, chain, cache1, items1, minGasFree, minBlock);
            var r2 := Uncongested(c, chain, cache2, items2, minGasFree, minBlock);
            && (r1.Some? && r2.Some? ==> r1.value.0 == r2.value.0)
            && (cache1.Keys == cache2.Keys ==> (r1.Some? <==> r2.Some?))
  {
    ScanExact(c, chain, cache1, items1);
    ScanExact(c, chain, cache2, items2);
    assert GenuineNumbers(c, chain, items1) == GenuineNumbers(c, chain, items2);
    assert RealUncongested(c, chain, items1, minGasFree, minBlock) ==
             RealUncongested(c, chain, items2, minGasFree, minBlock);
    if Uncongested(c, chain, cache1, items1, minGasFree, minBlock).Some? {
      CountExact(c, chain, cache1, items1, minGasFree, minBlock);
    }
    if Uncongested(c, chain, cache2, items2, minGasFree, minBlock).Some? {
      CountExact(c, chain, cache2, items2, minGasFree, minBlock);
    }
  }

  // ---------------------------------------------------------------- ArrayUint.sol

  method Append(self: array<nat>, value: nat) returns (arrayNew: array<nat>)
    ensures fresh(arrayNew)
    ensures arrayNew[..] == self[..] + [value]
  {
    arrayNew := new nat[self.Length + 1];
    var i := 0;
    while i < self.Length
      invariant 0 <= i <= self.Length
      invariant arrayNew[..i] == self[..i]
    {
      arrayNew[i] := self[i];
      i := i + 1;
    }
    arrayNew[self.Length] := value;
  }

  method Contains(self: array<nat>, value: nat) returns (index: int)
    ensures index == -1 <==> value !in self[..]
    ensures index != -1 ==> 0 <= index < self.Length && self[index] == value && value !in self[..index]
  {
    var i := 0;
    while i < self.Length
      invariant 0 <= i <= self.Length
      invariant value !in self[..i]
    {
      if self[i] == value { return i; }
      i := i + 1;
    }
    return -1;
  }

  ghost predicate Distinct(s: seq<nat>) {
    forall i, j :: 0 <= i < j < |s| ==> s[i] != s[j]
  }

  method RemoveDuplicates(self: array<nat>) returns (arrayUnique: array<nat>)
    ensures fresh(arrayUnique)
    ensures Distinct(arrayUnique[..])
    ensures forall x :: x in arrayUnique[..] <==> x in self[..]
  {
    arrayUnique := new nat[0];
    var i := 0;
    while i < self.Length
      invariant 0 <= i <= self.Length
      invariant fresh(arrayUnique)
      invariant Distinct(arrayUnique[..])
      invariant forall x :: x in arrayUnique[..] <==> x in self[..i]
    {
      assert self[..i + 1] == self[..i] + [self[i]];
      var found := Contains(arrayUnique, self[i]);
      if found < 0 {
        arrayUnique := Append(arrayUnique, self[i]);
      }
      i := i + 1;
    }
    assert self[..i] == self[..];
  }

  // ---------------------------------------------------------------- the contract

  class CongestionValidator {
    const codec: Codec
    var reportedBlocks: Cache

    constructor (codec: Codec)
      ensures this.codec == codec && reportedBlocks == map[]
    {
      this.codec := codec;
      reportedBlocks := map[];
    }

    /** ok is false when a require fails. */
    method BlockHeaderIsValid(chain: seq<Block>, header: Header) returns (ok: bool, valid: bool)
      ensures ok == InWindow(chain, header.number)
      ensures ok ==> valid == (header.blockHash == BlockHash(codec, chain, header.number))
    {
      if !(header.number < |chain|) { return false, false; }
      if !(header.number + 256 > |chain|) { return false, false; }
      return true, header.blockHash == BlockHash(codec, chain, header.number);
    }

    /** Reverting undoes the writes made so far, as the EVM does. */
    method ValidateRLPHeaders(chain: seq<Block>, items: seq<Bytes>) returns (ok: bool, blockNumbers: array<nat>)
      modifies this
      ensures fresh(blockNumbers)
      ensures match ScanAll(codec, chain, old(reportedBlocks), items)
              case None => !ok && reportedBlocks == old(reportedBlocks)
              case Some(s) => ok && reportedBlocks == s.cache && blockNumbers[..] == s.accepted
    {
      var saved := reportedBlocks;
      blockNumbers := new nat[0];
      assert blockNumbers[..] == [];
      var i := 0;
      while i < |items|
        invariant 0 <= i <= |items|
        invariant fresh(blockNumbers)
        invariant ScanAll(codec, chain, old(reportedBlocks), items[..i]) == Some(Scan(reportedBlocks, blockNumbers[..]))
      {
        assert items[..i + 1][..i] == items[..i];
        var parsed := ParseHeader(codec, items[i]);
        var failed := parsed.None?;
        var keep := true;
        if !failed {
          var header := parsed.value;
          if CachedHash(reportedBlocks, header.number) == 0 {
            var inTime, valid := BlockHeaderIsValid(chain, header);
            if !inTime {
              failed := true;
            } else if valid {
              reportedBlocks := reportedBlocks[header.number := header];
            } else {
              keep := false;
            }
          } else if header.blockHash != CachedHash(reportedBlocks, header.number) {
            keep := false;
          }
          if !failed && keep {
            blockNumbers := Append(blockNumbers, header.number);
          }
        }
        if failed {
          ScanFailureStays(codec, chain, old(reportedBlocks), items, i + 1);
          reportedBlocks := saved;
          return false, blockNumbers;
        }
        i := i + 1;
      }
      assert items[..i] == items;
      return true, blockNumbers;
    }

    method NumBlocksUncongested(chain: seq<Block>, items: seq<Bytes>, minGasFree: nat, minBlock: nat)
      returns (ok: bool, count: nat)
      modifies this
      ensures match Uncongested(codec, chain, old(reportedBlocks), items, minGasFree, minBlock)
              case None => !ok && reportedBlocks == old(reportedBlocks)
              case Some(r) => ok && count == r.0 && reportedBlocks == r.1
    {
      if minBlock > |chain| { return true, 0; }
      var validated, listed := ValidateRLPHeaders(chain, items);
      if !validated { return false, 0; }
      ghost var s := Scan(reportedBlocks, listed[..]);
      var blockNumbers := RemoveDuplicates(listed);
      count := CountUncongested(blockNumbers, minGasFree, minBlock);
      assert Counted(Scan(reportedBlocks, blockNumbers[..]), minGasFree, minBlock) == Counted(s, minGasFree, minBlock);
      return true, count;
    }

    /** The counting loop over numbers without repetition. */
    method CountUncongested(blockNumbers: array<nat>, minGasFree: nat, minBlock: nat) returns (count: nat)
      requires Distinct(blockNumbers[..])
      ensures count == |Counted(Scan(reportedBlocks, blockNumbers[..]), minGasFree, minBlock)|
    {
      count := 0;
      var i := 0;
      while i < blockNumbers.Length
        invariant 0 <= i <= blockNumbers.Length
        invariant count == |Counted(Scan(reportedBlocks, blockNumbers[..i]), minGasFree, minBlock)|
      {
        var number := blockNumbers[i];
        assert blockNumbers[..i + 1] == blockNumbers[..i] + [number];
        assert number !in blockNumbers[..i] by {
          assert number == blockNumbers[..][i];
          assert forall j :: 0 <= j < i ==> blockNumbers[..i][j] == blockNumbers[..][j];
        }
        CountedSnoc(reportedBlocks, blockNumbers[..i], number, minGasFree, minBlock);
        if number >= minBlock && CachedFree(reportedBlocks, number) >= minGasFree {
          count := count + 1;
        }
        i := i + 1;
      }
      assert blockNumbers[..i] == blockNumbers[..];
    }
  }

  lemma CountedSnoc(cache: Cache, numbers: seq<nat>, n: nat, minGasFree: nat, minBlock: nat)
    requires n !in numbers
    ensures |Counted(Scan(cache, numbers + [n]), minGasFree, minBlock)| ==
            |Counted(Scan(cache, numbers), minGasFree, minBlock)| +
            if n >= minBlock && CachedFree(cache, n) >= minGasFree then 1 else 0
  {
    var before := Counted(Scan(cache, numbers), minGasFree, minBlock);
    assert Counted(Scan(cache, numbers + [n]), minGasFree, minBlock) ==
           before + if n >= minBlock && CachedFree(cache, n) >= minGasFree then {n} else {};
  }

  lemma {:induction false} ScanFailureStays(c: Codec, chain: seq<Block>, cache: Cache, items: seq<Bytes>, n: nat)
    requires n <= |items| && ScanAll(c, chain, cache, items[..n]).None?
    ensures ScanAll(c, chain, cache, items).None?
    decreases |items|
  {
    if n < |items| {
      assert items[..|items| - 1][..n] == items[..n];
      ScanFailureStays(c, chain, cache, items[..|items| - 1], n);
    } else {
      assert items[..n] == items;
    }
  }
}
