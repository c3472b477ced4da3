/** The playground's token buffer and its turn loop: tokens are cut into 128-token blocks, each
    written with the hash of the block before it as parent. */
module TokenBuffer {
  import opened Types
  import opened Modulo

  /** `std::hash<Token>` depends on the standard library, so it is a parameter. */
  type TokenHash = Token -> Hash

  /** The order-sensitive hash of a block, in unsigned 64-bit arithmetic. */
  function BlockHash(th: TokenHash, block: seq<Token>): Hash {
    if block == [] then 0
    else (BlockHash(th, block[..|block| - 1]) * 31 + th(block[|block| - 1])) % WORD
  }

  function Power(b: nat, n: nat): nat {
    if n == 0 then 1 else b * Power(b, n - 1)
  }

  /** The sum of th(block[i]) * 31^(n - 1 - i) over all positions i, first position first. */
  function Polynomial(th: TokenHash, block: seq<Token>): nat {
    if block == [] then 0 else th(block[0]) * Power(31, |block| - 1) + Polynomial(th, block[1..])
  }

  lemma {:induction false} PolynomialAppend(th: TokenHash, block: seq<Token>, t: Token)
    ensures Polynomial(th, block + [t]) == Polynomial(th, block) * 31 + th(t)
  {
    if block == [] {
      assert [] + [t] == [t] && [t][1..] == [];
      assert Power(31, 0) == 1;
    } else {
      assert (block + [t])[1..] == block[1..] + [t];
      PolynomialAppend(th, block[1..], t);
      var x, q := th(block[0]), Power(31, |block| - 1);
      assert Power(31, |block|) == 31 * q;
      assert x * (31 * q) == (x * q) * 31;
    }
  }

  lemma HornerStep(a: nat, m: nat, x: nat)
    requires m > 0
    ensures (a % m * 31 + x) % m == (a * 31 + x) % m
  {
    var q := a / m;
    assert a == q * m + a % m;
    assert a * 31 + x == (a % m * 31 + x) + (q * 31) * m by {
      assert (q * m) * 31 == (q * 31) * m;
    }
    AddMultiple(a % m * 31 + x, q * 31, m);
  }

  /** The hash is that polynomial in unsigned 64-bit arithmetic. */
  lemma {:induction false} HashIsPolynomial(th: TokenHash, block: seq<Token>)
    ensures BlockHash(th, block) == Polynomial(th, block) % 0x1_0000_0000_0000_0000
    decreases |block|
  {
    if block != [] {
      var front, t := block[..|block| - 1], block[|block| - 1];
      assert block == front + [t];
      HashIsPolynomial(th, front);
      PolynomialAppend(th, front, t);
      HornerStep(Polynomial(th, front), 0x1_0000_0000_0000_0000, th(t));
    }
  }

  method ComputeHash(th: TokenHash, block: seq<Token>) returns (combinedHash: Hash)
    ensures combinedHash == BlockHash(th, block)
    ensures combinedHash == Polynomial(th, block) % 0x1_0000_0000_0000_0000
  {
    HashIsPolynomial(th, block);
    hide Polynomial;
    combinedHash := 0;
    for i := 0 to |block|
      invariant combinedHash == BlockHash(th, block[..i])
    {
      assert block[..i + 1][..i] == block[..i];
      combinedHash := (combinedHash as int * 31 + th(block[i]) as int) % WORD;
    }
    assert block[..|block|] == block;
  }

  function Hashes(th: TokenHash, tokens: seq<Token>, n: nat): (hs: seq<Hash>)
    requires n * BLOCK_SIZE <= |tokens|
    ensures |hs| == n
    ensures forall i :: 0 <= i < n ==> hs[i] == BlockHash(th, Block(tokens, i))
  {
    if n == 0 then [] else Hashes(th, tokens, n - 1) + [BlockHash(th, Block(tokens, n - 1))]
  }

  /** The index-based loop that prepares a lookup. */
  method LookupHashes(th: TokenHash, tokens: seq<Token>) returns (lookupHashes: seq<Hash>)
    ensures lookupHashes == Hashes(th, tokens, |tokens| / BLOCK_SIZE)
    ensures |lookupHashes| == |tokens| / 128
    ensures forall i :: 0 <= i < |lookupHashes| ==>
              lookupHashes[i] == Polynomial(th, tokens[128 * i..128 * i + 128]) % 0x1_0000_0000_0000_0000
  {
    hide Polynomial;
    lookupHashes := [];
    var numFullBlocks := |tokens| / BLOCK_SIZE;
    for blockNum := 0 to numFullBlocks
      invariant lookupHashes == Hashes(th, tokens, blockNum)
    {
      var currentHash: Hash := 0;
      ghost var block := Block(tokens, blockNum);
      for i := blockNum * BLOCK_SIZE to (blockNum + 1) * BLOCK_SIZE
        invariant currentHash == BlockHash(th, block[..i - blockNum * BLOCK_SIZE])
      {
        ghost var k := i - blockNum * BLOCK_SIZE;
        assert block[..k + 1][..k] == block[..k] && block[k] == tokens[i];
        currentHash := (currentHash as int * 31 + th(tokens[i]) as int) % WORD;
      }
      assert block[..BLOCK_SIZE] == block;
      lookupHashes := lookupHashes + [currentHash];
    }
    forall i | 0 <= i < |lookupHashes|
      ensures lookupHashes[i] == Polynomial(th, tokens[128 * i..128 * i + 128]) % 0x1_0000_0000_0000_0000
    {
      assert Block(tokens, i) == tokens[128 * i..128 * i + 128];
      HashIsPolynomial(th, Block(tokens, i));
    }
  }

  /* ------------------------------- the buffer as a value ------------------------------------ */

  /** A chunk handed to the store's write. */
  datatype Write = Write(tokens: seq<Token>, hash: Hash, parent: Hash)

  datatype Buffer = Buffer(blocks: seq<seq<Token>>, current: seq<Token>, written: nat, processed: nat,
                           last: Hash, hashes: seq<Hash>, tokens: seq<Token>, issued: seq<Write>)

  const EMPTY_BUFFER := Buffer([], [], 0, 0, 0, [], [], [])

  function AddToken(b: Buffer, t: Token): Buffer {
    var current := b.current + [t];
    if |current| >= BLOCK_SIZE then b.(blocks := b.blocks + [current], current := [], processed := b.processed + 1)
    else b.(current := current, processed := b.processed + 1)
  }

  function AddTokens(b: Buffer, ts: seq<Token>): Buffer {
    if ts == [] then b else AddToken(AddTokens(b, ts[..|ts| - 1]), ts[|ts| - 1])
  }

  function WriteBlock(th: TokenHash, b: Buffer, block: seq<Token>): Buffer {
    var h := BlockHash(th, block);
    b.(written := b.written + BLOCK_SIZE, last := h, hashes := b.hashes + [h], tokens := b.tokens + block,
       issued := b.issued + [Write(block, h, b.last)])
  }

  function WriteBlocks(th: TokenHash, b: Buffer, blocks: seq<seq<Token>>): Buffer {
    if blocks == [] then b
    else WriteBlock(th, WriteBlocks(th, b, blocks[..|blocks| - 1]), blocks[|blocks| - 1])
  }

  /** A failed flush has advanced everything but keeps its blocks. */
  function Flush(th: TokenHash, b: Buffer, ok: bool): Buffer {
    if b.blocks == [] then b
    else if ok then WriteBlocks(th, b, b.blocks).(blocks := [])
    else WriteBlocks(th, b, b.blocks)
  }

  /* ------------------------------- the buffer as an object ---------------------------------- */

  class TokenBufferManager {
    var completedBlocks: seq<seq<Token>>
    var currentBlock: seq<Token>
    var totalTokensWritten: nat
    var totalTokensProcessed: nat
    var lastWrittenHash: Hash
    var writtenBlockHashes: seq<Hash>
    var allWrittenTokens: seq<Token>
    ghost var issued: seq<Write>

    ghost function View(): Buffer
      reads this
    {
      Buffer(completedBlocks, currentBlock, totalTokensWritten, totalTokensProcessed, lastWrittenHash,
             writtenBlockHashes, allWrittenTokens, issued)
    }

    constructor ()
      ensures View() == EMPTY_BUFFER
    {
      completedBlocks, currentBlock, totalTokensWritten, totalTokensProcessed := [], [], 0, 0;
      lastWrittenHash, writtenBlockHashes, allWrittenTokens, issued := 0, [], [], [];
    }

    method Add(tokens: seq<Token>)
      modifies this
      ensures View() == AddTokens(old(View()), tokens)
    {
      for i := 0 to |tokens|
        invariant View() == AddTokens(old(View()), tokens[..i])
      {
        assert tokens[..i + 1][..i] == tokens[..i];
        currentBlock := currentBlock + [tokens[i]];
        totalTokensProcessed := totalTokensProcessed + 1;
        if |currentBlock| >= BLOCK_SIZE {
          completedBlocks := completedBlocks + [currentBlock];
          currentBlock := [];
        }
      }
      assert tokens[..|tokens|] == tokens;
    }

    /** `writesSucceed` is whether every write of the flush succeeds; otherwise the flush throws,
        which the result reports. */
    method FlushCompletedBlocks(th: TokenHash, writesSucceed: bool) returns (ok: bool)
      modifies this
      ensures View() == Flush(th, old(View()), writesSucceed)
      ensures ok <==> old(completedBlocks) == [] || writesSucceed
    {
      if completedBlocks == [] {
        return true;
      }
      var currentParentHash := lastWrittenHash;
      for i := 0 to |completedBlocks|
        invariant completedBlocks == old(completedBlocks)
        invariant View() == WriteBlocks(th, old(View()), completedBlocks[..i])
        invariant currentParentHash == lastWrittenHash
      {
        assert completedBlocks[..i + 1][..i] == completedBlocks[..i];
        currentParentHash := IssueWrite(th, completedBlocks[i], currentParentHash);
      }
      assert completedBlocks[..|completedBlocks|] == completedBlocks;
      if !writesSucceed {
        return false;
      }
      completedBlocks := [];
      return true;
    }

    /** One block of a flush: its write is issued and the account advances. */
    method IssueWrite(th: TokenHash, block: seq<Token>, parentHash: Hash) returns (combinedHash: Hash)
      requires parentHash == lastWrittenHash
      modifies this
      ensures View() == WriteBlock(th, old(View()), block)
      ensures completedBlocks == old(completedBlocks) && combinedHash == lastWrittenHash
    {
      combinedHash := ComputeHash(th, block);
      issued := issued + [Write(block, combinedHash, parentHash)];
      writtenBlockHashes := writtenBlockHashes + [combinedHash];
      allWrittenTokens := allWrittenTokens + block;
      lastWrittenHash := combinedHash;
      totalTokensWritten := totalTokensWritten + BLOCK_SIZE;
    }

    /** Marks the blocks that a lookup found as written. */
    method Resume(th: TokenHash, conversation: seq<Token>, answer: Answer)
      requires answer.cachedBlocks <= |conversation| / BLOCK_SIZE
      modifies this
      ensures View() == Resumed(th, old(View()), conversation, answer)
    {
      if totalTokensWritten == 0 && |conversation| >= BLOCK_SIZE {
        var lookupHashes := LookupHashes(th, conversation);
        var matchedLength := answer.cachedBlocks * BLOCK_SIZE;
        if matchedLength > 0 {
          Adopt(th, conversation, lookupHashes, matchedLength, answer);
        }
      }
    }

    /** The account a match sets up. */
    method Adopt(th: TokenHash, conversation: seq<Token>, lookupHashes: seq<Hash>, matchedLength: nat, answer: Answer)
      requires 0 < answer.cachedBlocks <= |conversation| / BLOCK_SIZE
      requires matchedLength == answer.cachedBlocks * BLOCK_SIZE
      requires lookupHashes == Hashes(th, conversation, |conversation| / BLOCK_SIZE)
      requires totalTokensWritten == 0
      modifies this
      ensures View() == Resumed(th, old(View()), conversation, answer)
    {
      hide BlockHash;
      totalTokensProcessed := matchedLength;
      totalTokensWritten := matchedLength / BLOCK_SIZE * BLOCK_SIZE;
      allWrittenTokens := allWrittenTokens + conversation[..totalTokensWritten];
      ghost var was := writtenBlockHashes;
      for i := 0 to totalTokensWritten / BLOCK_SIZE
        modifies `writtenBlockHashes
        invariant writtenBlockHashes == was + Hashes(th, conversation, i)
      {
        writtenBlockHashes := writtenBlockHashes + [lookupHashes[i]];
      }
      lastWrittenHash := answer.lastHash;
    }

    /** Adds whatever the buffer has not processed yet and flushes complete blocks. */
    method TakeIn(th: TokenHash, conversation: seq<Token>, writesSucceed: bool) returns (ok: bool)
      modifies this
      ensures View() == Taken(th, old(View()), conversation, writesSucceed)
      ensures ok <==> TakesIn(old(View()), conversation, writesSucceed)
    {
      ok := true;
      if |conversation| > totalTokensProcessed {
        Add(conversation[totalTokensProcessed..]);
        if |completedBlocks| > 0 {
          ok := FlushCompletedBlocks(th, writesSucceed);
        }
      }
    }
  }

  /* ------------------------------- turns ---------------------------------------------------- */

  /** What the store's lookup answers to the first cache check. */
  datatype Answer = Answer(cachedBlocks: nat, lastHash: Hash)

  function Resumed(th: TokenHash, b: Buffer, conversation: seq<Token>, answer: Answer): Buffer
    requires answer.cachedBlocks <= |conversation| / BLOCK_SIZE
  {
    var n := answer.cachedBlocks;
    if b.written == 0 && n > 0 then
      b.(processed := n * BLOCK_SIZE, written := n * BLOCK_SIZE, tokens := b.tokens + conversation[..n * BLOCK_SIZE],
         hashes := b.hashes + Hashes(th, conversation, n), last := answer.lastHash)
    else b
  }

  function Unprocessed(b: Buffer, conversation: seq<Token>): seq<Token> {
    if |conversation| > b.processed then conversation[b.processed..] else []
  }

  function Taken(th: TokenHash, b: Buffer, conversation: seq<Token>, ok: bool): Buffer {
    if |conversation| > b.processed then Flush(th, AddTokens(b, Unprocessed(b, conversation)), ok) else b
  }

  /** Whether taking in a conversation completes without an exception. */
  predicate TakesIn(b: Buffer, conversation: seq<Token>, ok: bool) {
    |conversation| > b.processed ==> AddTokens(b, Unprocessed(b, conversation)).blocks == [] || ok
  }

  /** One turn: the prompt, what the cache check answers, the agent's tokens, and whether the two
      flushes succeed. */
  datatype Turn = Turn(prompt: seq<Token>, answer: Answer, agent: seq<Token>, firstOk: bool, secondOk: bool)

  datatype Session = Session(buffer: Buffer, conversation: seq<Token>)

  predicate AnswerFits(s: Session, t: Turn) {
    t.answer.cachedBlocks <= |s.conversation + t.prompt| / BLOCK_SIZE
  }

  /** A failed first flush ends the turn before the agent answers. */
  function AfterTurn(th: TokenHash, s: Session, t: Turn): Session
    requires AnswerFits(s, t)
  {
    var asked := s.conversation + t.prompt;
    var b1 := Resumed(th, s.buffer, asked, t.answer);
    var b2 := Taken(th, b1, asked, t.firstOk);
    if !TakesIn(b1, asked, t.firstOk) then Session(b2, asked)
    else Session(Taken(th, b2, asked + t.agent, t.secondOk), asked + t.agent)
  }

  method RunTurn(th: TokenHash, manager: TokenBufferManager, conversation: seq<Token>, turn: Turn)
    returns (conversationTokens: seq<Token>)
    requires AnswerFits(Session(manager.View(), conversation), turn)
    modifies manager
    ensures Session(manager.View(), conversationTokens) ==
            AfterTurn(th, Session(old(manager.View()), conversation), turn)
  {
    conversationTokens := conversation + turn.prompt;
    manager.Resume(th, conversationTokens, turn.answer);
    var ok := manager.TakeIn(th, conversationTokens, turn.firstOk);
    if !ok {
      return;
    }
    conversationTokens := conversationTokens + turn.agent;
    ok := manager.TakeIn(th, conversationTokens, turn.secondOk);
  }

  /* ------------------------------- the turn invariant --------------------------------------- */

  function Flatten(blocks: seq<seq<Token>>): seq<Token> {
    if blocks == [] then [] else Flatten(blocks[..|blocks| - 1]) + blocks[|blocks| - 1]
  }

  /** All tokens the buffer accounts for, in order. */
  function Whole(b: Buffer): seq<Token> {
    b.tokens + Flatten(b.blocks) + b.current
  }

  predicate BlocksFull(b: Buffer) {
    forall k :: 0 <= k < |b.blocks| ==> |b.blocks[k]| == BLOCK_SIZE
  }

  /** The write of block `i`: its hash, and the hash of the block before it as parent. */
  function ChainedWrite(th: TokenHash, tokens: seq<Token>, i: nat): Write
    requires (i + 1) * BLOCK_SIZE <= |tokens|
  {
    Write(Block(tokens, i), BlockHash(th, Block(tokens, i)),
          if i == 0 then 0 else BlockHash(th, Block(tokens, i - 1)))
  }

  /** The written part: whole blocks, their hashes, and the chain of writes from block `base` on. */
  ghost predicate WrittenOk(th: TokenHash, b: Buffer, base: nat) {
    && |b.tokens| == BLOCK_SIZE * |b.hashes|
    && b.written == |b.tokens|
    && b.hashes == Hashes(th, b.tokens, |b.hashes|)
    && b.last == (if b.hashes == [] then 0 else b.hashes[|b.hashes| - 1])
    && base + |b.issued| == |b.hashes|
    && forall j :: 0 <= j < |b.issued| ==> b.issued[j] == ChainedWrite(th, b.tokens, base + j)
  }

  ghost predicate Coherent(th: TokenHash, s: Session, base: nat) {
    && WrittenOk(th, s.buffer, base)
    && s.buffer.blocks == []
    && s.buffer.tokens + s.buffer.current == s.conversation
    && |s.buffer.current| < BLOCK_SIZE
    && s.buffer.processed == |s.conversation|
  }

  lemma {:induction false} FlattenLength(blocks: seq<seq<Token>>)
    requires forall k :: 0 <= k < |blocks| ==> |blocks[k]| == BLOCK_SIZE
    ensures |Flatten(blocks)| == BLOCK_SIZE * |blocks|
  {
    if blocks != [] {
      FlattenLength(blocks[..|blocks| - 1]);
    }
  }

  lemma AddTokenWhole(b: Buffer, t: Token)
    requires BlocksFull(b) && |b.current| < BLOCK_SIZE
    ensures var c := AddToken(b, t);
            && Whole(c) == Whole(b) + [t] && BlocksFull(c) && |c.current| < BLOCK_SIZE
            && c == b.(blocks := c.blocks, current := c.current, processed := b.processed + 1)
  {
    var current := b.current + [t];
    assert (b.blocks + [current])[..|b.blocks|] == b.blocks;
    assert b.tokens + (Flatten(b.blocks) + current) + [] == b.tokens + Flatten(b.blocks) + b.current + [t];
    assert b.tokens + Flatten(b.blocks) + current == b.tokens + Flatten(b.blocks) + b.current + [t];
  }

  lemma {:induction false} AddTokensWhole(b: Buffer, ts: seq<Token>)
    requires BlocksFull(b) && |b.current| < BLOCK_SIZE
    ensures var c := AddTokens(b, ts);
            && Whole(c) == Whole(b) + ts && BlocksFull(c) && |c.current| < BLOCK_SIZE
            && c == b.(blocks := c.blocks, current := c.current, processed := b.processed + |ts|)
  {
    hide AddToken, Whole;
    if ts == [] {
      assert Whole(b) + [] == Whole(b);
    } else {
      AddTokensWhole(b, ts[..|ts| - 1]);
      AddTokenWhole(AddTokens(b, ts[..|ts| - 1]), ts[|ts| - 1]);
      assert Whole(b) + ts[..|ts| - 1] + [ts[|ts| - 1]] == Whole(b) + ts;
    }
  }

  lemma BlockOfPrefix(tokens: seq<Token>, more: seq<Token>, i: nat)
    requires (i + 1) * BLOCK_SIZE <= |tokens|
    ensures Block(tokens + more, i) == Block(tokens, i)
  {
  }

  lemma {:induction false} HashesOfPrefix(th: TokenHash, tokens: seq<Token>, more: seq<Token>, n: nat)
    requires n * BLOCK_SIZE <= |tokens|
    ensures Hashes(th, tokens + more, n) == Hashes(th, tokens, n)
  {
    if n > 0 {
      HashesOfPrefix(th, tokens, more, n - 1);
      BlockOfPrefix(tokens, more, n - 1);
    }
  }

  lemma ChainOfPrefix(th: TokenHash, tokens: seq<Token>, more: seq<Token>, i: nat)
    requires (i + 1) * BLOCK_SIZE <= |tokens|
    ensures ChainedWrite(th, tokens + more, i) == ChainedWrite(th, tokens, i)
  {
    hide BlockHash, Block;
    BlockOfPrefix(tokens, more, i);
    if i > 0 {
      BlockOfPrefix(tokens, more, i - 1);
    }
  }

  lemma WriteBlockOk(th: TokenHash, b: Buffer, block: seq<Token>, base: nat)
    requires WrittenOk(th, b, base) && |block| == BLOCK_SIZE
    ensures WrittenOk(th, WriteBlock(th, b, block), base)
  {
    hide BlockHash;
    var c := WriteBlock(th, b, block);
    var n := |b.hashes|;
    HashesOfPrefix(th, b.tokens, block, n);
    assert Block(c.tokens, n) == block;
    if n > 0 {
      BlockOfPrefix(b.tokens, block, n - 1);
    }
    forall j | 0 <= j < |c.issued| ensures c.issued[j] == ChainedWrite(th, c.tokens, base + j) {
      if j < |b.issued| {
        ChainOfPrefix(th, b.tokens, block, base + j);
      }
    }
  }

  lemma {:induction false} WriteBlocksOk(th: TokenHash, b: Buffer, blocks: seq<seq<Token>>, base: nat)
    requires WrittenOk(th, b, base) && forall k :: 0 <= k < |blocks| ==> |blocks[k]| == BLOCK_SIZE
    ensures var c := WriteBlocks(th, b, blocks);
            && WrittenOk(th, c, base) && c.tokens == b.tokens + Flatten(blocks)
            && c.blocks == b.blocks && c.current == b.current && c.processed == b.processed
  {
    hide WrittenOk, BlockHash;
    if blocks == [] {
      assert b.tokens + [] == b.tokens;
    } else {
      var front := blocks[..|blocks| - 1];
      WriteBlocksOk(th, b, front, base);
      WriteBlockOk(th, WriteBlocks(th, b, front), blocks[|blocks| - 1], base);
    }
  }

  /** Flushing keeps the account of tokens exactly when it succeeds or has nothing to do: a failed
      flush counts its blocks twice. */
  lemma FlushKeepsWhole(th: TokenHash, b: Buffer, base: nat, ok: bool)
    requires WrittenOk(th, b, base) && BlocksFull(b)
    ensures WrittenOk(th, Flush(th, b, ok), base)
    ensures ok ==> Flush(th, b, ok).blocks == []
    ensures Whole(Flush(th, b, ok)) == Whole(b) <==> b.blocks == [] || ok
  {
    hide WrittenOk;
    if b.blocks != [] {
      WriteBlocksOk(th, b, b.blocks, base);
      FlattenLength(b.blocks);
      assert WrittenOk(th, Flush(th, b, ok), base) by {
        SameWritten(th, WriteBlocks(th, b, b.blocks), base);
      }
      if ok {
        assert b.tokens + Flatten(b.blocks) + [] + b.current == Whole(b);
      } else {
        assert |Whole(Flush(th, b, ok))| > |Whole(b)|;
      }
    }
  }

  lemma SameWritten(th: TokenHash, b: Buffer, base: nat)
    requires WrittenOk(th, b, base)
    ensures WrittenOk(th, b.(blocks := []), base)
  {
  }

  lemma TakenKeeps(th: TokenHash, b: Buffer, conversation: seq<Token>, ok: bool, base: nat)
    requires WrittenOk(th, b, base) && b.blocks == [] && |b.current| < BLOCK_SIZE && b.processed <= |conversation| && ok
    ensures TakesIn(b, conversation, ok)
    ensures var c := Taken(th, b, conversation, ok);
            && WrittenOk(th, c, base) && c.blocks == [] && |c.current| < BLOCK_SIZE && c.processed == |conversation|
            && c.tokens + c.current == b.tokens + b.current + conversation[b.processed..]
  {
    hide AddTokens, WriteBlocks, BlockHash;
    var rest := conversation[b.processed..];
    var added := AddTokens(b, rest);
    AddTokensWhole(b, rest);
    FlushKeepsWhole(th, added, base, ok);
    assert Whole(b) == b.tokens + b.current by {
      assert b.tokens + [] + b.current == b.tokens + b.current;
    }
    var c := Flush(th, added, ok);
    FlushTouches(th, added, ok);
    assert Whole(c) == c.tokens + c.current by {
      assert c.tokens + [] + c.current == c.tokens + c.current;
    }
    if rest == [] {
      assert b.tokens + b.current + rest == b.tokens + b.current;
    }
  }

  lemma {:induction false} WriteBlocksTouches(th: TokenHash, b: Buffer, blocks: seq<seq<Token>>)
    ensures var c := WriteBlocks(th, b, blocks); c.current == b.current && c.processed == b.processed
  {
    if blocks != [] {
      WriteBlocksTouches(th, b, blocks[..|blocks| - 1]);
    }
  }

  lemma FlushTouches(th: TokenHash, b: Buffer, ok: bool)
    ensures var c := Flush(th, b, ok); c.current == b.current && c.processed == b.processed
  {
    WriteBlocksTouches(th, b, b.blocks);
  }

  /** Whether the cache check of this turn finds something and so replaces the buffer's account. */
  predicate Hit(s: Session, t: Turn) {
    s.buffer.written == 0 && t.answer.cachedBlocks > 0
  }

  /** An answer whose last hash is the content hash of the last block it covers. */
  predicate Sound(th: TokenHash, s: Session, t: Turn) {
    && AnswerFits(s, t)
    && (t.answer.cachedBlocks > 0 ==>
          t.answer.lastHash == BlockHash(th, Block(s.conversation + t.prompt, t.answer.cachedBlocks - 1)))
  }

  /** The first block written in this session after the turn; the ones before were found cached. */
  function NewBase(s: Session, t: Turn, base: nat): nat {
    if Hit(s, t) then t.answer.cachedBlocks else base
  }

  /** The account a cache hit sets up. */
  lemma HitAccount(th: TokenHash, b: Buffer, asked: seq<Token>, answer: Answer, base: nat)
    requires WrittenOk(th, b, base) && b.written == 0 && 0 < answer.cachedBlocks <= |asked| / BLOCK_SIZE
    requires answer.lastHash == BlockHash(th, Block(asked, answer.cachedBlocks - 1))
    ensures var c := Resumed(th, b, asked, answer);
            && WrittenOk(th, c, answer.cachedBlocks) && c.processed <= |asked|
            && b.tokens == [] && c.tokens == asked[..c.processed]
  {
    hide BlockHash;
    var n := answer.cachedBlocks;
    var front, rest := asked[..n * BLOCK_SIZE], asked[n * BLOCK_SIZE..];
    assert asked == front + rest;
    HashesOfPrefix(th, front, rest, n);
    BlockOfPrefix(front, rest, n - 1);
    assert b.tokens + front == front;
    assert b.hashes + Hashes(th, asked, n) == Hashes(th, asked, n);
  }

  lemma ResumeKeeps(th: TokenHash, s: Session, t: Turn, base: nat)
    requires Coherent(th, s, base) && Sound(th, s, t)
    ensures var b := Resumed(th, s.buffer, s.conversation + t.prompt, t.answer);
            && WrittenOk(th, b, NewBase(s, t, base)) && b.blocks == [] && b.current == s.buffer.current
            && b.processed <= |s.conversation + t.prompt|
            && (Hit(s, t) ==> s.buffer.tokens == [] && b.tokens == (s.conversation + t.prompt)[..b.processed])
            && (!Hit(s, t) ==> b == s.buffer)
  {
    hide BlockHash;
    if Hit(s, t) {
      HitAccount(th, s.buffer, s.conversation + t.prompt, t.answer, base);
    }
  }

  /** What a turn with successful flushes leaves: the written and buffered tokens are the old
      account, or the cached prefix, followed by what had not been processed. */
  lemma TurnAccount(th: TokenHash, s: Session, t: Turn, base: nat)
    requires Coherent(th, s, base) && Sound(th, s, t) && t.firstOk && t.secondOk
    ensures var u := AfterTurn(th, s, t);
            var asked := s.conversation + t.prompt;
            && u.conversation == asked + t.agent
            && WrittenOk(th, u.buffer, NewBase(s, t, base)) && u.buffer.blocks == []
            && |u.buffer.current| < BLOCK_SIZE && u.buffer.processed == |u.conversation|
            && u.buffer.tokens + u.buffer.current
               == if Hit(s, t)
                  then asked[..t.answer.cachedBlocks * BLOCK_SIZE] + s.buffer.current +
                    asked[t.answer.cachedBlocks * BLOCK_SIZE..] + t.agent
                  else u.conversation
  {
    hide WrittenOk, AddTokens, Flush, BlockHash;
    var asked := s.conversation + t.prompt;
    var base' := NewBase(s, t, base);
    var b1 := Resumed(th, s.buffer, asked, t.answer);
    ResumeKeeps(th, s, t, base);
    TakenKeeps(th, b1, asked, true, base');
    var b2 := Taken(th, b1, asked, true);
    TakenKeeps(th, b2, asked + t.agent, true, base');
    assert (asked + t.agent)[b2.processed..] == t.agent;
    if !Hit(s, t) {
      assert s.conversation + asked[|s.conversation|..] == asked;
    }
  }

  /** The turn invariant: with successful flushes, sound answers and a cache hit only on an empty
      buffer, written and buffered tokens are the conversation, blocks are whole, and every chunk
      carries the hash of the block before it, across flushes and turns. */
  lemma TurnKeeps(th: TokenHash, s: Session, t: Turn, base: nat)
    requires Coherent(th, s, base) && Sound(th, s, t) && t.firstOk && t.secondOk
    requires Hit(s, t) ==> s.buffer.current == []
    ensures Coherent(th, AfterTurn(th, s, t), NewBase(s, t, base))
  {
    hide WrittenOk, AfterTurn;
    TurnAccount(th, s, t, base);
    if Hit(s, t) {
      var asked, m := s.conversation + t.prompt, t.answer.cachedBlocks * BLOCK_SIZE;
      assert asked[..m] + [] + asked[m..] == asked;
    }
  }

  /** A cache hit while tokens are waiting in the buffer breaks the account: it holds after the
      turn exactly when the buffer was empty or nothing was hit. */
  lemma HitNeedsEmptyBuffer(th: TokenHash, s: Session, t: Turn, base: nat)
    requires Coherent(th, s, base) && Sound(th, s, t) && t.firstOk && t.secondOk
    ensures var u := AfterTurn(th, s, t);
            u.buffer.tokens + u.buffer.current == u.conversation <==> !Hit(s, t) || s.buffer.current == []
  {
    hide WrittenOk, AfterTurn;
    TurnAccount(th, s, t, base);
    if Hit(s, t) {
      var u := AfterTurn(th, s, t);
      assert |u.buffer.tokens + u.buffer.current| == |u.conversation| + |s.buffer.current|;
      if s.buffer.current == [] {
        TurnKeeps(th, s, t, base);
      }
    }
  }

  /** The cache is asked only while the whole conversation is shorter than a block. */
  lemma AskedOnlyWhileShort(th: TokenHash, s: Session, base: nat)
    requires Coherent(th, s, base)
    ensures s.buffer.written == 0 <==> |s.conversation| < BLOCK_SIZE
    ensures s.buffer.written == 0 ==> s.buffer.tokens == [] && s.buffer.current == s.conversation
  {
    hide Hashes, BlockHash;
    assert s.buffer.tokens == [] ==> s.buffer.tokens + s.buffer.current == s.buffer.current;
  }

  /* ------------------------------- a whole conversation ------------------------------------- */

  predicate Fits(th: TokenHash, s: Session, turns: seq<Turn>)
    decreases |turns|
  {
    turns == [] || (AnswerFits(s, turns[0]) && Fits(th, AfterTurn(th, s, turns[0]), turns[1..]))
  }

  function Converse(th: TokenHash, s: Session, turns: seq<Turn>): Session
    requires Fits(th, s, turns)
    decreases |turns|
  {
    if turns == [] then s else Converse(th, AfterTurn(th, s, turns[0]), turns[1..])
  }

  predicate Smooth(th: TokenHash, s: Session, turns: seq<Turn>)
    decreases |turns|
  {
    turns == []
    || (&& Sound(th, s, turns[0]) && turns[0].firstOk && turns[0].secondOk
        && (Hit(s, turns[0]) ==> s.buffer.current == [])
        && Smooth(th, AfterTurn(th, s, turns[0]), turns[1..]))
  }

  method RunConversation(th: TokenHash, turns: seq<Turn>)
    returns (manager: TokenBufferManager, conversationTokens: seq<Token>)
    requires Fits(th, Session(EMPTY_BUFFER, []), turns)
    ensures fresh(manager)
    ensures Session(manager.View(), conversationTokens) == Converse(th, Session(EMPTY_BUFFER, []), turns)
  {
    hide AfterTurn;
    manager := new TokenBufferManager();
    conversationTokens := [];
    for i := 0 to |turns|
      invariant fresh(manager)
      invariant Fits(th, Session(manager.View(), conversationTokens), turns[i..])
      invariant Converse(th, Session(EMPTY_BUFFER, []), turns)
                == Converse(th, Session(manager.View(), conversationTokens), turns[i..])
    {
      assert turns[i..][1..] == turns[i + 1..];
      conversationTokens := RunTurn(th, manager, conversationTokens, turns[i]);
    }
  }

  /** After every turn of a smooth conversation of any length the account is exact. */
  lemma {:induction false} ConversationIsCoherent(th: TokenHash, s: Session, turns: seq<Turn>, base: nat)
    returns (finalBase: nat)
    requires Coherent(th, s, base) && Smooth(th, s, turns)
    ensures Fits(th, s, turns)
    ensures Coherent(th, Converse(th, s, turns), finalBase)
    decreases |turns|
  {
    hide Coherent, AfterTurn, Sound;
    finalBase := base;
    if turns != [] {
      SoundFits(th, s, turns[0]);
      TurnKeeps(th, s, turns[0], base);
      finalBase := ConversationIsCoherent(th, AfterTurn(th, s, turns[0]), turns[1..], NewBase(s, turns[0], base));
    }
  }

  lemma SoundFits(th: TokenHash, s: Session, t: Turn)
    requires Sound(th, s, t)
    ensures AnswerFits(s, t)
  {
  }

  lemma StartIsCoherent(th: TokenHash)
    ensures Coherent(th, Session(EMPTY_BUFFER, []), 0)
  {
  }

  /** What a coherent session is, spelled out. */
  lemma CoherentMeans(th: TokenHash, s: Session, base: nat)
    requires Coherent(th, s, base)
    ensures var b := s.buffer;
            && b.tokens + b.current == s.conversation && |b.current| < 128
            && |b.tokens| == 128 * |b.hashes| == b.written
            && (forall i :: 0 <= i < |b.hashes| ==>
                  b.hashes[i] == Polynomial(th, b.tokens[128 * i..128 * i + 128]) % 0x1_0000_0000_0000_0000)
            && base + |b.issued| == |b.hashes|
            && forall j :: 0 <= j < |b.issued| ==>
                 && b.issued[j].tokens == b.tokens[128 * (base + j)..128 * (base + j) + 128]
                 && b.issued[j].hash == b.hashes[base + j]
                 && b.issued[j].parent == if base + j == 0 then 0 else b.hashes[base + j - 1]
  {
    hide BlockHash, Polynomial;
    var b := s.buffer;
    forall i | 0 <= i < |b.hashes|
      ensures b.hashes[i] == Polynomial(th, b.tokens[128 * i..128 * i + 128]) % 0x1_0000_0000_0000_0000
    {
      assert Block(b.tokens, i) == b.tokens[128 * i..128 * i + 128];
      HashIsPolynomial(th, Block(b.tokens, i));
    }
    forall j | 0 <= j < |b.issued|
      ensures b.issued[j].tokens == b.tokens[128 * (base + j)..128 * (base + j) + 128]
      ensures b.issued[j].hash == b.hashes[base + j]
      ensures b.issued[j].parent == if base + j == 0 then 0 else b.hashes[base + j - 1]
    {
      assert b.issued[j] == ChainedWrite(th, b.tokens, base + j);
    }
  }

  /** A turn whose first flush fails keeps the prompt in the conversation and its full blocks for a
      later flush, and gets no answer. */
  lemma FailedTurn(th: TokenHash, s: Session, t: Turn)
    requires AnswerFits(s, t)
    requires var b := Resumed(th, s.buffer, s.conversation + t.prompt, t.answer);
             !t.firstOk && |s.conversation + t.prompt| > b.processed
             && AddTokens(b, Unprocessed(b, s.conversation + t.prompt)).blocks != []
    ensures AfterTurn(th, s, t).conversation == s.conversation + t.prompt
    ensures var b := Resumed(th, s.buffer, s.conversation + t.prompt, t.answer);
            AfterTurn(th, s, t).buffer.blocks == AddTokens(b, Unprocessed(b, s.conversation + t.prompt)).blocks
  {
    var b := Resumed(th, s.buffer, s.conversation + t.prompt, t.answer);
    hide Resumed, AddTokens;
    KeepsBlocks(th, AddTokens(b, Unprocessed(b, s.conversation + t.prompt)),
                AddTokens(b, Unprocessed(b, s.conversation + t.prompt)).blocks);
  }

  lemma {:induction false} KeepsBlocks(th: TokenHash, b: Buffer, blocks: seq<seq<Token>>)
    ensures WriteBlocks(th, b, blocks).blocks == b.blocks
    decreases |blocks|
  {
    hide BlockHash;
    if blocks != [] {
      KeepsBlocks(th, b, blocks[..|blocks| - 1]);
    }
  }
}
