/** The playground, the writers and `Lookup` together: a conversation that the token buffer wrote is
    found again, and what a lookup answers lets the buffer resume. */
module Conversation {
  import opened Types
  import opened WriteProtocol
  import opened EndToEnd
  import opened Lookup
  import opened TokenBuffer
  import opened WriteInvariant
  import LongestChain
  import BlobNames

  /** The chunk that the buffer's write of block `i` hands to the store. */
  function ChunkOf(th: TokenHash, tokens: seq<Token>, i: nat, buffer: Bytes): Chunk
    requires (i + 1) * BLOCK_SIZE <= |tokens|
  {
    var w := ChainedWrite(th, tokens, i);
    Chunk(BlobNames.BlobName(w.tokens), w.hash, w.parent, buffer)
  }

  function Chunks(th: TokenHash, tokens: seq<Token>, buffers: seq<Bytes>): (cs: seq<Chunk>)
    requires |buffers| * BLOCK_SIZE <= |tokens|
    ensures |cs| == |buffers|
    ensures forall i :: 0 <= i < |cs| ==> cs[i] == ChunkOf(th, tokens, i, buffers[i])
  {
    seq(|buffers|, i requires 0 <= i < |buffers| => ChunkOf(th, tokens, i, buffers[i]))
  }

  predicate Small(ts: seq<Token>) {
    forall t :: t in ts ==> 0 <= t < BlobNames.WORD32
  }

  ghost predicate HashedBy(th: TokenHash, c: Chunk, ts: seq<Token>) {
    Small(ts) && c.name == BlobNames.BlobName(ts) && c.hash == BlockHash(th, ts)
  }

  /** Every write so far carries the content hash of the tokens that name its blob. */
  ghost predicate ContentHashed(th: TokenHash, s: State) {
    forall w :: w in s.calls ==> exists ts :: HashedBy(th, s.calls[w].chunk, ts)
  }

  lemma HashOfName(th: TokenHash, c: Chunk, block: seq<Token>)
    requires Small(block) && c.name == BlobNames.BlobName(block)
    requires exists ts :: HashedBy(th, c, ts)
    ensures c.hash == BlockHash(th, block)
  {
    var ts :| HashedBy(th, c, ts);
    BlobNames.NameIsInjective(ts, block);
  }

  /** In state `s` the write of this chunk is complete; the lookup sees its blob at `b.at`, before
      60 more commits. */
  ghost predicate Completed(s: State, c: Chunk, b: Written) {
    && b.w in s.calls && s.calls[b.w].chunk == c && s.calls[b.w].pc.Done?
    && Run(s, b.steps, b.at)
    && StillListed(b.at, s.calls[b.w])
  }

  lemma BlockIsWritten(th: TokenHash, tokens: seq<Token>, buffers: seq<Bytes>, s: State, i: nat, b: Written)
    requires |buffers| * BLOCK_SIZE <= |tokens| && i < |buffers| && Small(tokens)
    requires Completed(s, ChunkOf(th, tokens, i, buffers[i]), b) && ContentHashed(th, b.at)
    ensures BlockWritten(s, Chunks(th, tokens, buffers), i, b)
  {
    hide BlockHash, BlobNames.BlobName, Run, StillListed;
    var chunks := Chunks(th, tokens, buffers);
    assert forall t :: t in Block(tokens, i) ==> t in tokens;
    forall u | u in b.at.calls && b.at.calls[u].chunk.name == chunks[i].name
      ensures b.at.calls[u].chunk.hash == chunks[i].hash
    {
      HashOfName(th, b.at.calls[u].chunk, Block(tokens, i));
    }
    assert i > 0 ==> chunks[i - 1] == ChunkOf(th, tokens, i - 1, buffers[i - 1]);
  }

  /** A conversation written block by block is found again: once the writes of its first blocks are
      complete, a lookup of it or of any extension reports at least these blocks with their content
      hashes, whatever other writers do meanwhile. */
  lemma ConversationIsFound(th: TokenHash, tokens: seq<Token>, more: seq<Token>, buffers: seq<Bytes>,
                            s: State, blocks: seq<Written>, props: seq<Option<Snapshot>>)
    requires Small(tokens) && |tokens| == |buffers| * BLOCK_SIZE && |blocks| == |buffers|
    requires Reachable(s)
    requires forall i :: 0 <= i < |blocks| ==>
               Completed(s, ChunkOf(th, tokens, i, buffers[i]), blocks[i]) && ContentHashed(th, blocks[i].at)
    requires |props| == FullBlocks(tokens + more)
    requires forall i :: 0 <= i < |blocks| && Names(tokens + more)[i] in blocks[i].at.blobs ==>
               props[i] == Some(SnapshotOf(blocks[i].at.blobs[Names(tokens + more)[i]]))
    requires forall i :: |blocks| <= i < |props| ==> Genuine(props[i], Names(tokens + more)[i])
    ensures var found := Chain(Names(tokens + more), props, 0, 0);
            && found.Some? && |found.value| >= |blocks|
            && forall i :: 0 <= i < |blocks| ==> found.value[i].hash == BlockHash(th, Block(tokens, i))
  {
    hide BlockHash, BlobNames.BlobName, Run, StillListed, Chain, Genuine, Reachable, ContentHashed, Completed;
    var names, chunks := Names(tokens + more), Chunks(th, tokens, buffers);
    forall i | 0 <= i < |blocks| ensures names[i] == chunks[i].name && BlockWritten(s, chunks, i, blocks[i]) {
      assert Block(tokens + more, i) == Block(tokens, i);
      assert Completed(s, ChunkOf(th, tokens, i, buffers[i]), blocks[i]) && ContentHashed(th, blocks[i].at);
      BlockIsWritten(th, tokens, buffers, s, i, blocks[i]);
    }
    hide BlockWritten;
    WriteThenLookup(s, chunks, blocks, names, props);
  }

  /** What a lookup reports of content-hashed blobs is an answer the buffer can resume from. */
  lemma LookupAnswersSoundly(th: TokenHash, s: Session, t: Turn, props: seq<Option<Snapshot>>)
    requires |props| == FullBlocks(s.conversation + t.prompt) && forall p :: p in props ==> Readable(p)
    requires forall i :: 0 <= i < |props| && props[i].Some? ==>
               forall v :: v in Offers(props[i].value, Names(s.conversation + t.prompt)[i]) ==>
                 v.hash == BlockHash(th, Block(s.conversation + t.prompt, i))
    requires var r := Report(Chain(Names(s.conversation + t.prompt), props, 0, 0));
             r.Some? && t.answer == Answer(r.value.cachedBlocks, r.value.lastHash)
    ensures Sound(th, s, t)
  {
    hide Offers, Chain, BlockHash, Readable;
    var names := Names(s.conversation + t.prompt);
    ChainIsGreedy(names, props);
    var vs := Chain(names, props, 0, 0).value;
    if vs != [] {
      assert vs[|vs| - 1] in Offers(props[|vs| - 1].value, names[|vs| - 1]);
    }
  }

  /** A properties answer of a container in which every write so far is content-hashed. */
  ghost predicate HashedAnswer(th: TokenHash, p: Option<Snapshot>, name: Name) {
    p.Some? ==> exists t :: SeenIn(th, p, name, t)
  }

  ghost predicate SeenIn(th: TokenHash, p: Option<Snapshot>, name: Name, t: State) {
    && Reachable(t) && ContentHashed(th, t)
    && name in t.blobs && IsTokenName(name) && p == Some(SnapshotOf(t.blobs[name]))
  }

  /** Its versions all carry the content hash of the block that names the blob. */
  lemma OffersAreHashes(th: TokenHash, p: Option<Snapshot>, block: seq<Token>)
    requires Small(block) && HashedAnswer(th, p, BlobNames.BlobName(block))
    ensures Readable(p)
    ensures p.Some? ==> forall v :: v in Offers(p.value, BlobNames.BlobName(block)) ==> v.hash == BlockHash(th, block)
  {
    hide BlockHash, BlobNames.BlobName, Offers, Readable, SnapshotOf;
    if p.Some? {
      var name := BlobNames.BlobName(block);
      var t :| SeenIn(th, p, name, t);
      ReachableFacts(t, name);
      hide Inv, Reachable, Run;
      LogsHaveBlobs(t);
      SnapshotReadable(t, name);
      forall v | v in Offers(p.value, name) ensures v.hash == BlockHash(th, block) {
        OffersAreWrites(t, name, v);
        var w :| w in t.calls && t.calls[w].chunk.name == name && t.calls[w].chunk.hash == v.hash;
        HashOfName(th, t.calls[w].chunk, block);
      }
    } else {
      NothingIsReadable();
    }
  }

  lemma NothingIsReadable()
    ensures Readable(None)
  {
  }

  /** When every writer hashes content, a lookup of tokens that fit in 32 bits answers soundly, and no
      other choice of versions reaches further: what `RunIsCoherent` asks of the answers, the store
      gives. */
  lemma StoreAnswersSoundly(th: TokenHash, s: Session, t: Turn, props: seq<Option<Snapshot>>)
    requires Small(s.conversation + t.prompt) && |props| == FullBlocks(s.conversation + t.prompt)
    requires forall i :: 0 <= i < |props| ==> HashedAnswer(th, props[i], Names(s.conversation + t.prompt)[i])
    requires var r := Report(Chain(Names(s.conversation + t.prompt), props, 0, 0));
             r.Some? ==> t.answer == Answer(r.value.cachedBlocks, r.value.lastHash)
    ensures Sound(th, s, t)
    ensures var names := Names(s.conversation + t.prompt);
            Chain(names, props, 0, 0).Some? && LongestChain.Longest(names, props, Chain(names, props, 0, 0).value)
  {
    hide BlockHash, BlobNames.BlobName, Offers, Readable, HashedAnswer, Chain;
    var asked := s.conversation + t.prompt;
    var names := Names(asked);
    forall i | 0 <= i < |props|
      ensures Readable(props[i])
      ensures props[i].Some? ==>
                forall v :: v in Offers(props[i].value, names[i]) ==> v.hash == BlockHash(th, Block(asked, i))
    {
      assert forall k :: k in Block(asked, i) ==> k in asked;
      OffersAreHashes(th, props[i], Block(asked, i));
    }
    ChainIsGreedy(names, props);
    LookupAnswersSoundly(th, s, t, props);
    OneHashEach(th, asked, props);
    forall us | Linked(names, props, us) ensures |us| <= |Chain(names, props, 0, 0).value| {
      LongestChain.GreedyIsLongest(names, props, us);
    }
  }

  lemma OneHashEach(th: TokenHash, tokens: seq<Token>, props: seq<Option<Snapshot>>)
    requires |props| == FullBlocks(tokens)
    requires forall i :: 0 <= i < |props| && props[i].Some? ==>
               forall v :: v in Offers(props[i].value, Names(tokens)[i]) ==> v.hash == BlockHash(th, Block(tokens, i))
    ensures LongestChain.ContentDetermined(Names(tokens), props)
  {
    hide BlockHash, BlobNames.BlobName;
    var names := Names(tokens);
    forall i | 0 <= i < |props| && props[i].Some?
      ensures forall v :: v in Offers(props[i].value, names[i]) ==> v.hash == props[i].value.hash
    {
      var p := props[i].value;
      assert Offers(p, names[i])[0] == Version(p.hash, p.parent, names[i]);
      assert Offers(p, names[i])[0] in Offers(p, names[i]);
    }
  }
}
