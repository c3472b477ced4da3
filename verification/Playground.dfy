/** The playground's conversations: synthetic agent answers marked with the run's identifier, and
    what they do for the account of the token buffer. */
module Playground {
  import opened Types
  import opened TokenBuffer

  /* ------------------------------- synthetic answers ---------------------------------------- */

  const MARKERS := 8

  function High(uniqueRunId: Hash): Token {
    uniqueRunId / 0x1_0000_0000
  }

  function Low(uniqueRunId: Hash): Token {
    uniqueRunId % 0x1_0000_0000
  }

  /** The i-th token between the markers. */
  function BodyToken(uniqueRunId: Hash, turnNumber: nat, i: nat): Token {
    1000 + i
    + if i % 5 == 0 then uniqueRunId / 0x1_0000 % 0x1_0000
      else if i % 5 == 1 then uniqueRunId / 0x100 % 0x1_0000
      else if i % 5 == 2 then turnNumber * 10 + uniqueRunId % 0x100
      else if i % 5 == 3 then uniqueRunId / 0x100_0000 % 0x100 * 7
      else (turnNumber + i) * 3 + uniqueRunId / 0x1000 % 0x10
  }

  function Body(uniqueRunId: Hash, turnNumber: nat, n: nat): (r: seq<Token>)
    ensures |r| == n
  {
    if n == 0 then [] else Body(uniqueRunId, turnNumber, n - 1) + [BodyToken(uniqueRunId, turnNumber, n - 1)]
  }

  function SyntheticResponse(uniqueRunId: Hash, threadId: nat, turnNumber: nat, baseResponseSize: int): seq<Token> {
    [High(uniqueRunId), Low(uniqueRunId), 20000 + threadId, 30000 + turnNumber]
    + Body(uniqueRunId, turnNumber, if baseResponseSize < MARKERS then 0 else baseResponseSize - MARKERS)
    + [40000 + turnNumber, 50000 + threadId, Low(uniqueRunId), High(uniqueRunId)]
  }

  method GenerateSyntheticResponse(uniqueRunId: Hash, threadId: nat, turnNumber: nat, baseResponseSize: int)
    returns (tokens: seq<Token>)
    ensures tokens == SyntheticResponse(uniqueRunId, threadId, turnNumber, baseResponseSize)
  {
    tokens := [High(uniqueRunId), Low(uniqueRunId)];
    tokens := tokens + [20000 + threadId];
    tokens := tokens + [30000 + turnNumber];
    ghost var prefix := tokens;
    var i := 0;
    while i < baseResponseSize - MARKERS
      invariant 0 <= i && (i == 0 || i <= baseResponseSize - MARKERS)
      invariant tokens == prefix + Body(uniqueRunId, turnNumber, i)
    {
      var token := 1000 + i;
      if i % 5 == 0 {
        token := token + uniqueRunId / 0x1_0000 % 0x1_0000;
      } else if i % 5 == 1 {
        token := token + uniqueRunId / 0x100 % 0x1_0000;
      } else if i % 5 == 2 {
        token := token + (turnNumber * 10 + uniqueRunId % 0x100);
      } else if i % 5 == 3 {
        token := token + uniqueRunId / 0x100_0000 % 0x100 * 7;
      } else {
        token := token + ((turnNumber + i) * 3 + uniqueRunId / 0x1000 % 0x10);
      }
      tokens := tokens + [token];
      i := i + 1;
    }
    tokens := tokens + [40000 + turnNumber];
    tokens := tokens + [50000 + threadId];
    tokens := tokens + [Low(uniqueRunId)];
    tokens := tokens + [High(uniqueRunId)];
  }

  /** The size of an answer, and the run's identifier at both ends of it. */
  lemma ResponseMarkers(uniqueRunId: Hash, threadId: nat, turnNumber: nat, baseResponseSize: int)
    ensures var r := SyntheticResponse(uniqueRunId, threadId, turnNumber, baseResponseSize);
            && |r| == (if baseResponseSize < MARKERS then MARKERS else baseResponseSize)
            && r[..2] == [High(uniqueRunId), Low(uniqueRunId)]
            && r[|r| - 2..] == [Low(uniqueRunId), High(uniqueRunId)]
            && High(uniqueRunId) * 0x1_0000_0000 + Low(uniqueRunId) == uniqueRunId
  {
  }

  /** Answers of different runs differ, and so do those of different turns of one run. */
  lemma AnswersDiffer(id1: Hash, id2: Hash, threadId: nat, turn1: nat, turn2: nat, size: int)
    ensures SyntheticResponse(id1, threadId, turn1, size) == SyntheticResponse(id2, threadId, turn2, size)
            <==> id1 == id2 && turn1 == turn2
  {
    var a, b := SyntheticResponse(id1, threadId, turn1, size), SyntheticResponse(id2, threadId, turn2, size);
    hide Body;
    if a == b {
      assert a[0] == b[0] && a[1] == b[1] && a[3] == b[3];
    }
  }

  /* ------------------------------- the account of a run ------------------------------------- */

  /** The answer stands in the block as a whole. */
  ghost predicate Holds(block: seq<Token>, answer: seq<Token>) {
    exists x, y :: block == x + answer + y
  }

  /** No block that other runs cached holds this answer. */
  ghost predicate Unforeseen(others: iset<seq<Token>>, answer: seq<Token>) {
    answer != [] && forall b :: b in others ==> !Holds(b, answer)
  }

  lemma FirstTwo(block: seq<Token>, answer: seq<Token>) returns (i: nat)
    requires Holds(block, answer) && |answer| >= 2
    ensures i + 1 < |block| && block[i] == answer[0] && block[i + 1] == answer[1]
  {
    var x, y :| block == x + answer + y;
    i := |x|;
    assert block[i] == answer[0] && block[i + 1] == answer[1];
  }

  /** Blocks without the two markers of a run in a row do not hold its answers. */
  lemma MarkersMakeUnforeseen(others: iset<seq<Token>>, uniqueRunId: Hash, threadId: nat, turnNumber: nat, size: int)
    requires forall b, i: nat :: b in others && i + 1 < |b| ==>
               b[i] != High(uniqueRunId) || b[i + 1] != Low(uniqueRunId)
    ensures Unforeseen(others, SyntheticResponse(uniqueRunId, threadId, turnNumber, size))
  {
    var r := SyntheticResponse(uniqueRunId, threadId, turnNumber, size);
    hide SyntheticResponse;
    ResponseMarkers(uniqueRunId, threadId, turnNumber, size);
    assert r[0] == r[..2][0] && r[1] == r[..2][1];
    forall b | b in others ensures !Holds(b, r) {
      if Holds(b, r) {
        var i := FirstTwo(b, r);
      }
    }
  }

  /** What the cache answers before this run has written anything was cached by others. */
  ghost predicate FromOthers(others: iset<seq<Token>>, s: Session, t: Turn)
    requires AnswerFits(s, t)
  {
    s.buffer.written == 0 ==>
      forall i: nat :: i < t.answer.cachedBlocks ==> Block(s.conversation + t.prompt, i) in others
  }

  /** The conversation is empty or ends in an answer of this run. */
  ghost predicate EndsInAnswer(others: iset<seq<Token>>, conversation: seq<Token>) {
    conversation == [] || exists k: nat :: k < |conversation| && Unforeseen(others, conversation[k..])
  }

  /** So a hit can only happen at the very start. */
  lemma HitOnlyAtStart(th: TokenHash, s: Session, t: Turn, base: nat, others: iset<seq<Token>>)
    requires Coherent(th, s, base) && Sound(th, s, t) && FromOthers(others, s, t)
    requires EndsInAnswer(others, s.conversation)
    ensures Hit(s, t) ==> s.conversation == [] && s.buffer.current == []
  {
    hide BlockHash, WrittenOk, Unforeseen;
    AskedOnlyWhileShort(th, s, base);
    if Hit(s, t) && s.conversation != [] {
      var asked := s.conversation + t.prompt;
      var k: nat :| k < |s.conversation| && Unforeseen(others, s.conversation[k..]);
      assert Block(asked, 0) in others;
      assert Block(asked, 0) == s.conversation[..k] + s.conversation[k..] + asked[|s.conversation|..BLOCK_SIZE];
      assert Holds(Block(asked, 0), s.conversation[k..]);
      NotHeld(others, s.conversation[k..], Block(asked, 0));
    }
  }

  lemma NotHeld(others: iset<seq<Token>>, answer: seq<Token>, block: seq<Token>)
    requires Unforeseen(others, answer) && block in others
    ensures !Holds(block, answer)
  {
  }

  /** A conversation with successful flushes and sound answers, in which the blocks found before the
      run's first write are of others and hold none of its answers. */
  ghost predicate Undisturbed(th: TokenHash, s: Session, turns: seq<Turn>, others: iset<seq<Token>>)
    decreases |turns|
  {
    turns == []
    || (&& Sound(th, s, turns[0]) && turns[0].firstOk && turns[0].secondOk
        && FromOthers(others, s, turns[0]) && Unforeseen(others, turns[0].agent)
        && Undisturbed(th, AfterTurn(th, s, turns[0]), turns[1..], others))
  }

  lemma {:induction false} UndisturbedIsSmooth(th: TokenHash, s: Session, turns: seq<Turn>, base: nat,
                                               others: iset<seq<Token>>)
    requires Coherent(th, s, base) && EndsInAnswer(others, s.conversation) && Undisturbed(th, s, turns, others)
    ensures Smooth(th, s, turns)
    decreases |turns|
  {
    hide Coherent, AfterTurn, Sound, Unforeseen, FromOthers;
    if turns != [] {
      var t := turns[0];
      SoundFits(th, s, t);
      var u := AfterTurn(th, s, t);
      HitOnlyAtStart(th, s, t, base, others);
      TurnKeeps(th, s, t, base);
      TurnAccount(th, s, t, base);
      assert EndsInAnswer(others, u.conversation) by {
        var k := |s.conversation + t.prompt|;
        assert u.conversation[k..] == t.agent;
        NotEmpty(others, t.agent);
        assert k < |u.conversation| && Unforeseen(others, u.conversation[k..]);
      }
      UndisturbedIsSmooth(th, u, turns[1..], NewBase(s, t, base), others);
    }
  }

  lemma NotEmpty(others: iset<seq<Token>>, answer: seq<Token>)
    requires Unforeseen(others, answer)
    ensures answer != []
  {
  }

  /** Every run of the playground whose flushes succeed keeps an exact account to its end, unless
      another run has cached a block that holds one of its answers. */
  lemma RunIsCoherent(th: TokenHash, turns: seq<Turn>, others: iset<seq<Token>>) returns (base: nat)
    requires Undisturbed(th, Session(EMPTY_BUFFER, []), turns, others)
    ensures Fits(th, Session(EMPTY_BUFFER, []), turns)
    ensures Coherent(th, Converse(th, Session(EMPTY_BUFFER, []), turns), base)
    ensures var s := Converse(th, Session(EMPTY_BUFFER, []), turns);
            && s.buffer.tokens + s.buffer.current == s.conversation && |s.buffer.current| < 128
            && |s.buffer.tokens| == 128 * |s.buffer.hashes|
            && forall i :: 0 <= i < |s.buffer.hashes| ==>
                 s.buffer.hashes[i] == Polynomial(th, s.buffer.tokens[128 * i..128 * i + 128]) % 0x1_0000_0000_0000_0000
  {
    var start := Session(EMPTY_BUFFER, []);
    StartIsCoherent(th);
    hide Coherent;
    UndisturbedIsSmooth(th, start, turns, 0, others);
    base := ConversationIsCoherent(th, start, turns, 0);
    CoherentMeans(th, Converse(th, start, turns), base);
  }

  /* ------------------------------- when one is foreseen ------------------------------------- */

  function FirstTurn(prompt: seq<Token>, answer: seq<Token>): Turn {
    Turn(prompt, Answer(0, 0), answer, true, true)
  }

  /** After a first turn of fewer than 128 tokens all of them wait in the buffer. */
  lemma WaitingTokens(th: TokenHash, prompt: seq<Token>, answer: seq<Token>)
    requires |prompt| + |answer| < BLOCK_SIZE
    ensures var s := AfterTurn(th, Session(EMPTY_BUFFER, []), FirstTurn(prompt, answer));
            && Coherent(th, s, 0) && s.buffer.written == 0
            && s.conversation == prompt + answer && s.buffer.current == prompt + answer
  {
    var start := Session(EMPTY_BUFFER, []);
    StartIsCoherent(th);
    assert Sound(th, start, FirstTurn(prompt, answer));
    hide Coherent, AfterTurn, WrittenOk;
    TurnKeeps(th, start, FirstTurn(prompt, answer), 0);
    TurnAccount(th, start, FirstTurn(prompt, answer), 0);
    assert [] + prompt + answer == prompt + answer;
    AskedOnlyWhileShort(th, AfterTurn(th, start, FirstTurn(prompt, answer)), 0);
  }

  /** If a block that holds this run's first answer is cached, the account does break: a prompt of
      at most 77 tokens and its answer of 50 wait in the buffer, and the next prompt completes that
      block. After a longer first prompt the conversation has a whole block, and the cache is not
      asked again (`AskedOnlyWhileShort`). */
  lemma HitOnWaitingTokens(th: TokenHash, prompt: seq<Token>, next: seq<Token>, uniqueRunId: Hash, reply: seq<Token>,
                           others: iset<seq<Token>>)
    requires |prompt| <= 77 && |prompt| + 50 + |next| >= 128
    requires (prompt + SyntheticResponse(uniqueRunId, 0, 1, 50) + next)[..128] in others
    ensures var answer := SyntheticResponse(uniqueRunId, 0, 1, 50);
            var s := AfterTurn(th, Session(EMPTY_BUFFER, []), FirstTurn(prompt, answer));
            var block := (prompt + answer + next)[..128];
            var t := Turn(next, Answer(1, BlockHash(th, block)), reply, true, true);
            && Coherent(th, s, 0) && Sound(th, s, t) && FromOthers(others, s, t) && Holds(block, answer) && Hit(s, t)
            && var u := AfterTurn(th, s, t); u.buffer.tokens + u.buffer.current != u.conversation
  {
    var answer := SyntheticResponse(uniqueRunId, 0, 1, 50);
    ResponseMarkers(uniqueRunId, 0, 1, 50);
    hide BlockHash, AfterTurn, SyntheticResponse, Coherent;
    WaitingTokens(th, prompt, answer);
    var s := AfterTurn(th, Session(EMPTY_BUFFER, []), FirstTurn(prompt, answer));
    var block := (prompt + answer + next)[..128];
    var t := Turn(next, Answer(1, BlockHash(th, block)), reply, true, true);
    assert Block(s.conversation + next, 0) == block;
    assert block == prompt + answer + next[..BLOCK_SIZE - |prompt| - |answer|];
    assert Holds(block, answer);
    HitNeedsEmptyBuffer(th, s, t, 0);
  }

  /* ------------------------------- answers, token by token ---------------------------------- */

  lemma {:induction false} BodyAt(uniqueRunId: Hash, turnNumber: nat, n: nat, i: nat)
    requires i < n
    ensures Body(uniqueRunId, turnNumber, n)[i] == BodyToken(uniqueRunId, turnNumber, i)
  {
    if i < n - 1 {
      BodyAt(uniqueRunId, turnNumber, n - 1, i);
    }
  }

  /** Position i behind the four leading markers of an answer of 50 tokens: 1000 + i, and a part of
      the identifier or of the turn number that depends on i modulo 5. */
  lemma ResponseAt(uniqueRunId: Hash, turnNumber: nat, i: nat)
    requires i < 42
    ensures |SyntheticResponse(uniqueRunId, 0, turnNumber, 50)| == 50
    ensures var part := SyntheticResponse(uniqueRunId, 0, turnNumber, 50)[4 + i] - (1000 + i);
            && (i % 5 == 0 ==> part == uniqueRunId / 65536 % 65536)
            && (i % 5 == 1 ==> part == uniqueRunId / 256 % 65536)
            && (i % 5 == 2 ==> part == turnNumber * 10 + uniqueRunId % 256)
            && (i % 5 == 3 ==> part == uniqueRunId / 16777216 % 256 * 7)
            && (i % 5 == 4 ==> part == (turnNumber + i) * 3 + uniqueRunId / 4096 % 16)
  {
    hide Body;
    BodyAt(uniqueRunId, turnNumber, 42, i);
    var r := SyntheticResponse(uniqueRunId, 0, turnNumber, 50);
    assert r[4 + i] == Body(uniqueRunId, turnNumber, 42)[i];
  }

  /** The markers around it: identifier, thread 0 and turn. */
  lemma MarkersAt(uniqueRunId: Hash, turnNumber: nat)
    ensures var r := SyntheticResponse(uniqueRunId, 0, turnNumber, 50);
            && |r| == 50
            && r[..4] == [uniqueRunId / 4294967296, uniqueRunId % 4294967296, 20000, 30000 + turnNumber]
            && r[46..] == [40000 + turnNumber, 50000, uniqueRunId % 4294967296, uniqueRunId / 4294967296]
  {
    hide Body;
  }
}
