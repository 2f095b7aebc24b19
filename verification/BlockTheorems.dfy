/** What verifying the blocks of the ledger proves about their columns, whatever was done to the table. */
module BlockTheorems {
  import opened Common
  import opened AuditChain
  import opened Anchoring
  import opened AnchoringTheorems

  /** Block `j` is the one that `b` is checked against: the first numbered one less. */
  ghost predicate Precedes(blocks: seq<Block>, j: nat, b: Block) {
    j < |blocks| && 1 <= blocks[j].sequence == b.sequence - 1
      && forall k | 0 <= k < j :: blocks[k].sequence != blocks[j].sequence
  }

  /** The block's hash is that of its other columns. */
  ghost predicate Rehashes(c: Crypto, b: Block) {
    b.blockHash == c.hash(b.previousBlockHash + b.rootHash + b.createdAt)
  }

  /**
    * For any table: a block verifies exactly when its hash is that of its columns and it names the hash of the block
    * numbered one less, or the genesis hash if there is none.
    */
  lemma LinkDecides(c: Crypto, blocks: seq<Block>, b: Block)
    ensures ChainLinkValid(c, blocks, b) <==>
              && Rehashes(c, b)
              && (forall j: nat :: Precedes(blocks, j, b) ==> b.previousBlockHash == blocks[j].blockHash)
              && ((forall j: nat :: !Precedes(blocks, j, b)) ==>
                 b.previousBlockHash == c.hash("B-PFMPS-BLOCKCHAIN-GENESIS"))
  {
    if j: nat :| Precedes(blocks, j, b) {
      forall i: nat | Precedes(blocks, i, b) ensures i == j {}
      FindBlockAt(blocks, j);
      assert FindBlock(blocks, b.sequence - 1) == Some(blocks[j]);
    } else if b.sequence > 1 {
      if i :| 0 <= i < |blocks| && blocks[i].sequence == b.sequence - 1 {
        var first := FirstNumbered(blocks, i);
        assert Precedes(blocks, first, b);
      } else {
        FindBlockNone(blocks, b.sequence - 1);
      }
    }
  }

  lemma {:induction false} FirstNumbered(blocks: seq<Block>, i: nat) returns (first: nat)
    requires i < |blocks|
    ensures first <= i && blocks[first].sequence == blocks[i].sequence
    ensures forall k | 0 <= k < first :: blocks[k].sequence != blocks[i].sequence
  {
    if k :| 0 <= k < i && blocks[k].sequence == blocks[i].sequence { first := FirstNumbered(blocks, k); } else {
      first := i;
    }
  }

  /** Numbered one by one, from any first number. */
  ghost predicate Consecutive(blocks: seq<Block>) {
    forall i | 0 <= i < |blocks| :: 1 <= blocks[i].sequence == blocks[0].sequence + i
  }

  /** Block `i` names the hash of the block before it, the first one the genesis hash, and its hash is its columns'. */
  ghost predicate Follows(c: Crypto, blocks: seq<Block>, i: nat)
    requires i < |blocks|
  {
    && Rehashes(c, blocks[i])
    && blocks[i].previousBlockHash
       == if i == 0 then c.hash("B-PFMPS-BLOCKCHAIN-GENESIS") else blocks[i - 1].blockHash
  }

  /** Where no number is skipped, every block is checked against the one before it. */
  lemma LinkOfConsecutive(c: Crypto, blocks: seq<Block>, i: nat)
    requires Consecutive(blocks) && i < |blocks|
    ensures ChainLinkValid(c, blocks, blocks[i]) <==> Follows(c, blocks, i)
  {
    LinkDecides(c, blocks, blocks[i]);
    hide ChainLinkValid;
    if i > 0 { assert Precedes(blocks, i - 1, blocks[i]); }
    forall j: nat | Precedes(blocks, j, blocks[i]) ensures j == i - 1 {
      assert blocks[j].sequence == blocks[0].sequence + j;
    }
  }

  // Tamper evidence

  /** Every block of the table verifies, and its time is one. */
  ghost predicate AllVerify(c: Crypto, blocks: seq<Block>) {
    && Consecutive(blocks)
    && forall i | 0 <= i < |blocks| :: ChainLinkValid(c, blocks, blocks[i]) && IsTime(blocks[i].createdAt)
  }

  function BlockText(b: Block): string {
    b.previousBlockHash + b.rootHash + b.createdAt
  }

  /** The texts that verifying the blocks hashes. */
  ghost function BlockTexts(blocks: seq<Block>): set<string> {
    {GENESIS_BLOCK} + (set i | 0 <= i < |blocks| :: BlockText(blocks[i]))
  }

  /** The hashes agree, and root and time agree exactly where the roots are equally long. */
  ghost predicate SameBlock(p: Block, q: Block) {
    && p.previousBlockHash == q.previousBlockHash && p.blockHash == q.blockHash
    && p.rootHash + p.createdAt == q.rootHash + q.createdAt
    && (p.rootHash == q.rootHash && p.createdAt == q.createdAt <==> |p.rootHash| == |q.rootHash|)
  }

  ghost predicate SameBlocks(a: seq<Block>, b: seq<Block>) {
    |a| == |b| && forall i | 0 <= i < |a| :: SameBlock(a[i], b[i])
  }

  /** The last block's own columns, from its verifying; and the table without it verifies too. */
  lemma LastVerifies(c: Crypto, blocks: seq<Block>)
    requires Sound(c) && AllVerify(c, blocks) && blocks != []
    ensures var n := |blocks| - 1;
            && AllVerify(c, blocks[..n])
            && blocks[n].previousBlockHash == BlockHead(c, blocks[..n]) && Rehashes(c, blocks[n])
            && |blocks[n].previousBlockHash| == DIGEST && IsTime(blocks[n].createdAt)
  {
    hide ChainLinkValid, IsTime;
    var n := |blocks| - 1;
    assert Consecutive(blocks[..n]);
    forall i | 0 <= i < |blocks| ensures Follows(c, blocks, i) { LinkOfConsecutive(c, blocks, i); }
    forall i | 0 <= i < n ensures ChainLinkValid(c, blocks[..n], blocks[..n][i]) {
      assert Follows(c, blocks, i);
      LinkOfConsecutive(c, blocks[..n], i);
    }
    assert Follows(c, blocks, n);
    assert |blocks[n].previousBlockHash| == DIGEST by {
      if n > 0 { assert Follows(c, blocks, n - 1); }
    }
  }

  lemma BlockTextUnique(p: Block, q: Block)
    requires |p.previousBlockHash| == |q.previousBlockHash| && BlockText(p) == BlockText(q)
             && p.blockHash == q.blockHash
    ensures SameBlock(p, q)
  {
    var n := |p.previousBlockHash|;
    assert p.previousBlockHash == BlockText(p)[..n] && q.previousBlockHash == BlockText(p)[..n];
    assert p.rootHash + p.createdAt == BlockText(p)[n..] && q.rootHash + q.createdAt == BlockText(p)[n..];
    if |p.rootHash| == |q.rootHash| {
      assert p.rootHash == BlockText(p)[n..][..|p.rootHash|] && q.rootHash == BlockText(p)[n..][..|p.rootHash|];
      assert p.createdAt == BlockText(p)[n..][|p.rootHash|..] && q.createdAt == BlockText(p)[n..][|p.rootHash|..];
    }
  }

  lemma LastText(c: Crypto, blocks: seq<Block>, texts: set<string>)
    requires Sound(c) && AllVerify(c, blocks) && blocks != [] && BlockTexts(blocks) <= texts && !Collides(c, texts)
    ensures BlockText(blocks[|blocks| - 1]) in texts && BlockTexts(blocks[..|blocks| - 1]) <= texts
    ensures BlockHead(c, blocks) == c.hash(BlockText(blocks[|blocks| - 1])) != c.hash(GENESIS_BLOCK)
  {
    hide AllVerify, Collides, IsTime;
    LastVerifies(c, blocks);
    var last := blocks[|blocks| - 1];
    assert |BlockText(last)| > |GENESIS_BLOCK|;
    assert GENESIS_BLOCK in texts && BlockText(last) in texts;
    if c.hash(BlockText(last)) == c.hash(GENESIS_BLOCK) { Distinct(c, texts, BlockText(last), GENESIS_BLOCK); }
  }

  lemma {:induction false} BlockHeadPins(c: Crypto, a: seq<Block>, b: seq<Block>, texts: set<string>)
    requires Sound(c) && AllVerify(c, a) && AllVerify(c, b) && BlockHead(c, a) == BlockHead(c, b)
    requires BlockTexts(a) <= texts && BlockTexts(b) <= texts && !Collides(c, texts)
    ensures SameBlocks(a, b)
    decreases |a|
  {
    hide Sound, AllVerify, Collides, BlockTexts, BlockText, SameBlock;
    if a != [] { LastText(c, a, texts); }
    if b != [] { LastText(c, b, texts); }
    if a != [] {
      var p, q := a[|a| - 1], b[|b| - 1];
      Distinct(c, texts, BlockText(p), BlockText(q));
      LastVerifies(c, a);
      LastVerifies(c, b);
      BlockTextUnique(p, q);
      BlockHeadPins(c, a[..|a| - 1], b[..|b| - 1], texts);
      assert forall i | 0 <= i < |a| - 1 :: a[i] == a[..|a| - 1][i] && b[i] == b[..|b| - 1][i];
    }
  }

  /**
    * Tamper evidence of the ledger: two tables whose every block verifies and that end in one block hash have the same
    * hashes at every position, and the same root and time wherever the roots are equally long, or two different texts
    * hashed while verifying them have one digest.
    */
  lemma BlocksTamperEvident(c: Crypto, a: seq<Block>, b: seq<Block>)
    requires Sound(c) && AllVerify(c, a) && AllVerify(c, b) && BlockHead(c, a) == BlockHead(c, b)
    ensures SameBlocks(a, b) || Collides(c, BlockTexts(a) + BlockTexts(b))
  {
    hide Sound, AllVerify, Collides, BlockTexts, SameBlocks;
    if !Collides(c, BlockTexts(a) + BlockTexts(b)) { BlockHeadPins(c, a, b, BlockTexts(a) + BlockTexts(b)); }
  }

  /** The length does matter: nothing separates the root from the time, and times have two lengths. */
  lemma RootsOfTwoLengths(c: Crypto, root: string, time: string)
    requires |time| == 24 && time[0] != '+' && time[0] != '-'
    ensures exists a: seq<Block>, b: seq<Block> ::
              && AllVerify(c, a) && AllVerify(c, b) && BlockHead(c, a) == BlockHead(c, b) && |a| == 1 == |b|
              && a[0].rootHash == root && a[0].createdAt == "+01" + time
              && b[0].rootHash == root + "+01" && b[0].createdAt == time
  {
    var previous := c.hash(GENESIS_BLOCK);
    var p := Block(1, previous, c.hash(previous + root + ("+01" + time)), root, "+01" + time);
    var q := Block(1, previous, c.hash(previous + (root + "+01") + time), root + "+01", time);
    assert previous + root + ("+01" + time) == previous + (root + "+01") + time;
    assert AllVerify(c, [p]) && AllVerify(c, [q]) && BlockHead(c, [p]) == BlockHead(c, [q]);
  }
}
