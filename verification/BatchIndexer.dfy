// The indexer's run: read the cursor, fetch the next batch, apply it and move the cursor in one
// transaction, and go on while blocks remain. Fetching and applying may fail, and the process may
// stop before any commit.
module BatchIndexer {
  import opened Wrappers
  import opened Events
  import opened LogSorting

  datatype Settings = Settings(
    archiveThreshold: nat, archiveBatch: nat, recentBatch: nat, finalizedDifference: Option<nat>)

  // Batch sizes are at least one block.
  predicate ValidSettings(s: Settings) {
    s.archiveBatch >= 1 && s.recentBatch >= 1
  }

  // What one pass sees of the world: the heads, the logs a node returns for a range (None when the
  // call fails), and whether the process survives until the commit.
  datatype Observation<E> = Observation(
    recentHead: int, currentHeight: int, finalizedHeight: int,
    fetch: (nat, nat) -> Option<seq<Log<E>>>, survives: bool)

  // Nodes return exactly the logs of the chain in the range, in any order.
  ghost predicate Faithful<E(!new)>(chain: seq<Log<E>>, o: Observation<E>) {
    forall a: nat, b: nat :: o.fetch(a, b).Some? ==> multiset(o.fetch(a, b).value) == multiset(Range(chain, a, b))
  }

  function FromBlock(cursor: Option<nat>, minBlock: nat): nat {
    if cursor.None? then minBlock else cursor.value + 1
  }

  // How far blocks are final: the finalized height, or within an allowed distance of the current one if
  // that is further.
  ghost predicate AtHead<E>(s: Settings, o: Observation<E>, head: int) {
    && NotBeyond(s, o, head)
    && (head == o.finalizedHeight
        || (s.finalizedDifference.Some? && head == o.currentHeight - s.finalizedDifference.value))
  }

  // The head does not lie beyond this block.
  ghost predicate NotBeyond<E>(s: Settings, o: Observation<E>, head: int) {
    && o.finalizedHeight <= head
    && (s.finalizedDifference.Some? ==> o.currentHeight - s.finalizedDifference.value <= head)
  }

  function MaxToBlock<E>(s: Settings, o: Observation<E>): (head: int)
    ensures AtHead(s, o, head)
  {
    if s.finalizedDifference.Some? && o.currentHeight - s.finalizedDifference.value > o.finalizedHeight
    then o.currentHeight - s.finalizedDifference.value else o.finalizedHeight
  }

  function BatchSize<E>(s: Settings, o: Observation<E>, from: nat): nat {
    if o.recentHead - from > s.archiveThreshold then s.archiveBatch else s.recentBatch
  }

  // From one block to the other is a whole batch, or less and up to the head.
  ghost predicate IsBatch(from: nat, to: nat, head: int, size: nat) {
    from <= to <= head && to - from + 1 <= size && (to == head || to - from + 1 == size)
  }

  // Last block of the next batch: an archive node's size is used beyond the threshold.
  function ToBlock<E>(s: Settings, o: Observation<E>, from: nat): (to: nat)
    requires ValidSettings(s) && from <= MaxToBlock(s, o)
    ensures forall head | AtHead(s, o, head) ::
              && (o.recentHead - from > s.archiveThreshold ==> IsBatch(from, to, head, s.archiveBatch))
              && (o.recentHead - from <= s.archiveThreshold ==> IsBatch(from, to, head, s.recentBatch))
  {
    if MaxToBlock(s, o) - from >= BatchSize(s, o, from) then from + BatchSize(s, o, from) - 1 else MaxToBlock(s, o)
  }

  // A batch is not cut at the last block of a removed contract: it passes it exactly when the head and
  // the batch size let it.
  lemma PassesLastBlock<E>(s: Settings, o: Observation<E>, from: nat, last: nat)
    requires ValidSettings(s) && from <= MaxToBlock(s, o)
    ensures ToBlock(s, o, from) > last <==> MaxToBlock(s, o) > last && from + BatchSize(s, o, from) > last + 1
  {
  }

  ghost predicate Joined<E>(a: seq<Log<E>>, b: seq<Log<E>>, ab: seq<Log<E>>) {
    ab == a + b
  }

  // Applying one batch after another, when both are accepted, is applying them together.
  ghost predicate Composes<S(!new), E(!new)>(apply: (S, seq<Log<E>>) -> Option<S>) {
    forall s, a, b, ab {:trigger apply(s, a), Joined(a, b, ab)} ::
      Joined(a, b, ab) && apply(s, a).Some? && apply(apply(s, a).value, b).Some? ==>
        apply(s, ab) == apply(apply(s, a).value, b)
  }

  // Ranges that follow one another from `from` up to, not including, `end`, none longer than a batch.
  ghost predicate Tiles(ranges: seq<(nat, nat)>, from: nat, end: nat, s: Settings) {
    if ranges == [] then from == end
    else
      var r := ranges[|ranges| - 1];
      && r.0 <= r.1 && r.1 + 1 == end
      && (r.1 - r.0 + 1 <= s.archiveBatch || r.1 - r.0 + 1 <= s.recentBatch)
      && Tiles(ranges[..|ranges| - 1], from, r.0, s)
  }

  lemma {:induction false} TilesForward(ranges: seq<(nat, nat)>, from: nat, end: nat, s: Settings)
    requires Tiles(ranges, from, end, s)
    ensures from <= end
  {
    if ranges != [] {
      TilesForward(ranges[..|ranges| - 1], from, ranges[|ranges| - 1].0, s);
    }
  }

  lemma {:induction false} TilesNext(ranges: seq<(nat, nat)>, from: nat, mid: nat, to: nat, s: Settings)
    requires Tiles(ranges, from, mid, s) && mid <= to
    requires to - mid + 1 <= s.archiveBatch || to - mid + 1 <= s.recentBatch
    ensures Tiles(ranges + [(mid, to)], from, to + 1, s)
  {
    assert (ranges + [(mid, to)])[..|ranges|] == ranges;
  }

  function Larger(x: int, y: int): int {
    if x < y then y else x
  }

  // No head lies beyond `head`.
  ghost predicate Below<E>(s: Settings, obs: seq<Observation<E>>, head: int) {
    forall i | 0 <= i < |obs| :: NotBeyond(s, obs[i], head)
  }

  // Nothing fails, and the head stands here.
  ghost predicate Steady<E(!new)>(s: Settings, o: Observation<E>, head: int) {
    AtHead(s, o, head) && o.survives && forall a: nat, b: nat :: o.fetch(a, b).Some?
  }

  ghost predicate Undisturbed<E(!new)>(s: Settings, obs: seq<Observation<E>>, head: int) {
    forall i | 0 <= i < |obs| :: Steady(s, obs[i], head)
  }

  lemma Rest<E(!new)>(s: Settings, chain: seq<Log<E>>, obs: seq<Observation<E>>, head: int)
    requires obs != [] && FaithfulAll(chain, obs)
    ensures FaithfulAll(chain, obs[1..])
    ensures Below(s, obs, head) ==> NotBeyond(s, obs[0], head) && Below(s, obs[1..], head)
    ensures Undisturbed(s, obs, head) ==> Steady(s, obs[0], head) && Undisturbed(s, obs[1..], head)
  {
  }

  ghost predicate FaithfulAll<E(!new)>(chain: seq<Log<E>>, obs: seq<Observation<E>>) {
    forall i | 0 <= i < |obs| :: Faithful(chain, obs[i])
  }

  // The batch of blocks a to b is accepted after the blocks before it, if those were.
  ghost predicate AcceptsBatch<S, E>(apply: (S, seq<Log<E>>) -> Option<S>, chain: seq<Log<E>>, initial: S,
                                     minBlock: nat, a: nat, b: nat)
  {
    var before := apply(initial, Range(chain, minBlock, a - 1));
    before.Some? ==> apply(before.value, Range(chain, a, b)).Some?
  }

  // However the chain is split up to the head, its batches are accepted.
  ghost predicate AcceptsChain<S, E>(apply: (S, seq<Log<E>>) -> Option<S>, chain: seq<Log<E>>, initial: S,
                                     minBlock: nat, head: int)
  {
    forall a: nat, b: nat | minBlock <= a <= b <= head :: AcceptsBatch(apply, chain, initial, minBlock, a, b)
  }

  datatype Outcome = UpToDate | Failed

  // One call of `run`: the last block of a removed contract, and what its passes see.
  datatype Attempt<E> = Attempt(maxBlock: Option<nat>, observations: seq<Observation<E>>)

  ghost predicate FaithfulAttempts<E(!new)>(chain: seq<Log<E>>, attempts: seq<Attempt<E>>) {
    forall i | 0 <= i < |attempts| :: FaithfulAll(chain, attempts[i].observations)
  }

  ghost predicate BelowAll<E>(s: Settings, attempts: seq<Attempt<E>>, head: int) {
    forall i | 0 <= i < |attempts| :: Below(s, attempts[i].observations, head)
  }

  // This attempt is left undisturbed at the head for as long as it can need.
  ghost predicate SettlesIn<E(!new)>(s: Settings, a: Attempt<E>, minBlock: nat, head: int) {
    && a.maxBlock.None? && Undisturbed(s, a.observations, head)
    && |a.observations| >= 1 && |a.observations| > head - minBlock
  }

  // One of the attempts is, and none sees a head beyond.
  ghost predicate Settles<E(!new)>(s: Settings, attempts: seq<Attempt<E>>, minBlock: nat, head: int) {
    && BelowAll(s, attempts, head)
    && exists i :: 0 <= i < |attempts| && SettlesIn(s, attempts[i], minBlock, head)
  }

  class Indexer<S(!new), E(!new)> {
    const settings: Settings
    const minBlock: nat
    const apply: (S, seq<Log<E>>) -> Option<S>
    // The tables, the `end_block` of indexer_state, and the ranges committed so far.
    var tables: S
    var cursor: Option<nat>
    var committed: seq<(nat, nat)>

    constructor (settings: Settings, minBlock: nat, apply: (S, seq<Log<E>>) -> Option<S>, tables: S,
                 ghost chain: seq<Log<E>>)
      requires ValidSettings(settings) && apply(tables, []) == Some(tables)
      ensures this.settings == settings && this.minBlock == minBlock && this.apply == apply
      ensures this.tables == tables && cursor == None && committed == []
      ensures Synced(chain, tables)
    {
      this.settings, this.minBlock, this.apply := settings, minBlock, apply;
      this.tables, this.cursor, this.committed := tables, None, [];
      new;
      RangeEmpty(chain, minBlock, minBlock - 1);
    }

    // The first block not yet indexed.
    function Next(): nat
      reads this
    {
      FromBlock(cursor, minBlock)
    }

    // The tables are those of every log from the first block to the cursor, each applied once, in
    // chain order; the committed ranges cover exactly those blocks.
    ghost predicate Synced(chain: seq<Log<E>>, initial: S)
      reads this
    {
      && ValidSettings(settings)
      && apply(initial, Range(chain, minBlock, Next() - 1)) == Some(tables)
      && Tiles(committed, minBlock, Next(), settings)
    }

    // The last block of a removed contract has been indexed.
    predicate LastReached(maxBlock: Option<nat>)
      reads this
    {
      maxBlock.Some? && cursor.Some? && cursor.value >= maxBlock.value
    }

    predicate Due(maxBlock: Option<nat>, o: Observation<E>)
      reads this
    {
      !LastReached(maxBlock) && Next() <= MaxToBlock(settings, o)
    }

    // What decides whether a batch is committed.
    ghost predicate Commits(o: Observation<E>, chain: seq<Log<E>>, to: nat)
      reads this
    {
      o.fetch(Next(), to).Some? && o.survives && apply(tables, Range(chain, Next(), to)).Some?
    }

    // A due batch of an accepted chain is committed when nothing fails.
    lemma {:induction false} WillCommit(maxBlock: Option<nat>, o: Observation<E>, chain: seq<Log<E>>, initial: S,
                                        head: int)
      requires Synced(chain, initial) && Due(maxBlock, o) && Steady(settings, o, head)
      requires AcceptsChain(apply, chain, initial, minBlock, head)
      ensures Commits(o, chain, ToBlock(settings, o, Next()))
    {
      TilesForward(committed, minBlock, Next(), settings);
      assert AcceptsBatch(apply, chain, initial, minBlock, Next(), ToBlock(settings, o, Next()));
    }

    // One transaction: the batch and the cursor, or neither.
    method Commit(logs: seq<Log<E>>, fromBlock: nat, toBlock: nat, survives: bool, ghost chain: seq<Log<E>>,
                  ghost initial: S)
      returns (done: bool)
      requires StrictlySorted(chain) && Synced(chain, initial) && Composes(apply)
      requires fromBlock == Next() <= toBlock
      requires toBlock - fromBlock + 1 <= settings.archiveBatch || toBlock - fromBlock + 1 <= settings.recentBatch
      requires logs == Range(chain, fromBlock, toBlock)
      modifies this`tables, this`cursor, this`committed
      ensures Synced(chain, initial)
      ensures done <==> survives && old(apply(tables, logs)).Some?
      ensures done ==> Some(tables) == old(apply(tables, logs)) && cursor == Some(toBlock)
                       && committed == old(committed) + [(fromBlock, toBlock)] && old(committed) <= committed
      ensures !done ==> tables == old(tables) && cursor == old(cursor) && committed == old(committed)
    {
      var updated := apply(tables, logs);
      if updated.None? || !survives {
        return false;
      }
      TilesForward(committed, minBlock, fromBlock, settings);
      TilesNext(committed, minBlock, fromBlock, toBlock, settings);
      Advance(apply, chain, initial, minBlock, fromBlock, toBlock, tables);
      committed := committed + [(fromBlock, toBlock)];
      tables := updated.value;
      cursor := Some(toBlock);
      done := true;
    }

    // One pass. None asks for another. A pass that is due commits the next batch exactly when the
    // fetch, the update and the process all succeed; it ends the run at the head.
    method Pass(maxBlock: Option<nat>, o: Observation<E>, ghost chain: seq<Log<E>>, ghost initial: S)
      returns (r: Option<Outcome>)
      requires StrictlySorted(chain) && Synced(chain, initial) && Composes(apply) && Faithful(chain, o)
      modifies this`tables, this`cursor, this`committed
      ensures Synced(chain, initial) && old(committed) <= committed
      ensures !old(Due(maxBlock, o)) ==> r == Some(UpToDate) && tables == old(tables) && cursor == old(cursor)
      ensures old(Due(maxBlock, o)) ==>
                var to := ToBlock(settings, o, old(Next()));
                var done := old(Commits(o, chain, to));
                && (done ==> cursor == Some(to) && r == if to < MaxToBlock(settings, o) then None else Some(UpToDate))
                && (!done ==> r == Some(Failed) && tables == old(tables) && cursor == old(cursor))
      // Nothing beyond the final blocks is indexed, and nothing short of them reported as up to date,
      // unless a last block has been indexed; then nothing more is.
      ensures forall head | NotBeyond(settings, o, head) :: Next() <= Larger(old(Next()), head + 1)
      ensures r == Some(UpToDate) ==>
                || (maxBlock.Some? && cursor.Some? && cursor.value >= maxBlock.value)
                || forall head | AtHead(settings, o, head) :: Next() > head
      ensures maxBlock.Some? && old(cursor).Some? && old(cursor).value >= maxBlock.value ==>
                r == Some(UpToDate) && tables == old(tables) && cursor == old(cursor)
    {
      if LastReached(maxBlock) {
        return Some(UpToDate);
      }
      var fromBlock := Next();
      if fromBlock > MaxToBlock(settings, o) {
        return Some(UpToDate);
      }
      var toBlock := ToBlock(settings, o, fromBlock);
      var logs := o.fetch(fromBlock, toBlock);
      if logs.None? {
        return Some(Failed);
      }
      SortRestores(chain, fromBlock, toBlock, logs.value);
      var done := Commit(SortLogs(logs.value), fromBlock, toBlock, o.survives, chain, initial);
      if !done {
        return Some(Failed);
      }
      r := if toBlock == MaxToBlock(settings, o) then Some(UpToDate) else None;
    }

    // A run has nothing left to do at this head.
    predicate Finished(maxBlock: Option<nat>, head: int)
      reads this
    {
      (maxBlock.Some? && cursor.Some? && cursor.value >= maxBlock.value) || Next() > head
    }

    // How far a pass moves the cursor, and what an undisturbed one achieves.
    method Proceed(maxBlock: Option<nat>, o: Observation<E>, ghost chain: seq<Log<E>>, ghost initial: S,
                   ghost head: int)
      returns (r: Option<Outcome>)
      requires StrictlySorted(chain) && Synced(chain, initial) && Composes(apply) && Faithful(chain, o)
      modifies this`tables, this`cursor, this`committed
      ensures Synced(chain, initial) && old(Next()) <= Next() && old(committed) <= committed
      ensures NotBeyond(settings, o, head) ==> Next() <= Larger(old(Next()), head + 1)
      ensures maxBlock.Some? ==> Next() <= Larger(old(Next()), Overshoot(maxBlock.value))
      ensures Steady(settings, o, head) && AcceptsChain(apply, chain, initial, minBlock, head) ==>
                && (r == None ==> old(Next()) < Next() <= head)
                && (r.Some? ==> r == Some(UpToDate) && Finished(maxBlock, head))
    {
      if Due(maxBlock, o) {
        BatchEnds(settings, o, Next());
      }
      if Steady(settings, o, head) && AcceptsChain(apply, chain, initial, minBlock, head) {
        HeadIs(settings, o, head);
        if Due(maxBlock, o) {
          WillCommit(maxBlock, o, chain, initial, head);
        }
      }
      r := Pass(maxBlock, o, chain, initial);
    }

    // The furthest first block after a last block: batches are not cut at it.
    function Overshoot(last: nat): int
      reads this
    {
      Larger(minBlock, last) + LargestBatch(settings)
    }

    // Whatever fails, and however the heads move, the tables stay in step with the cursor, which moves
    // forward alone, no further than the heads, and at most a batch beyond a last block. While nothing
    // fails, the head stands still and the chain is accepted, the run ends up to date, each pass
    // taking at least one of the remaining blocks.
    method Run(maxBlock: Option<nat>, obs: seq<Observation<E>>, ghost chain: seq<Log<E>>, ghost initial: S,
               ghost head: int)
      returns (outcome: Outcome)
      requires StrictlySorted(chain) && Synced(chain, initial) && Composes(apply) && FaithfulAll(chain, obs)
      modifies this`tables, this`cursor, this`committed
      ensures Synced(chain, initial)
      ensures old(Next()) <= Next() && old(committed) <= committed
      ensures Below(settings, obs, head) ==> Next() <= Larger(old(Next()), head + 1)
      ensures maxBlock.Some? ==> Next() <= Larger(old(Next()), Overshoot(maxBlock.value))
      ensures Undisturbed(settings, obs, head) && AcceptsChain(apply, chain, initial, minBlock, head)
              && |obs| >= 1 && |obs| > head - old(Next()) ==>
                outcome == UpToDate && Finished(maxBlock, head)
      decreases |obs|
    {
      if obs == [] {
        // The process stopped here.
        return Failed;
      }
      var r := Proceed(maxBlock, obs[0], chain, initial, head);
      if r.Some? {
        return r.value;
      }
      Rest(settings, chain, obs, head);
      outcome := Run(maxBlock, obs[1..], chain, initial, head);
    }

    // One run after another: once an attempt has settled at a head of an accepted chain, the cursor has
    // reached it.
    method RunAll(attempts: seq<Attempt<E>>, ghost chain: seq<Log<E>>, ghost initial: S, ghost head: int)
      requires StrictlySorted(chain) && Synced(chain, initial) && Composes(apply) && FaithfulAttempts(chain, attempts)
      requires minBlock <= Next()
      modifies this`tables, this`cursor, this`committed
      ensures Synced(chain, initial) && old(Next()) <= Next()
      ensures BelowAll(settings, attempts, head) ==> Next() <= Larger(old(Next()), head + 1)
      ensures forall i | 0 <= i < |attempts| && SettlesIn(settings, attempts[i], minBlock, head) ::
                AcceptsChain(apply, chain, initial, minBlock, head) ==> Next() > head
    {
      for i := 0 to |attempts|
        invariant Synced(chain, initial) && old(Next()) <= Next()
        invariant BelowAll(settings, attempts, head) ==> Next() <= Larger(old(Next()), head + 1)
        invariant forall j | 0 <= j < i && SettlesIn(settings, attempts[j], minBlock, head) ::
            AcceptsChain(apply, chain, initial, minBlock, head) ==> Next() > head
      {
        var outcome := Run(attempts[i].maxBlock, attempts[i].observations, chain, initial, head);
      }
    }
  }

  function LargestBatch(s: Settings): nat {
    if s.archiveBatch < s.recentBatch then s.recentBatch else s.archiveBatch
  }

  lemma HeadIs<E>(s: Settings, o: Observation<E>, head: int)
    requires AtHead(s, o, head)
    ensures MaxToBlock(s, o) == head
  {
  }

  lemma {:induction false} BatchEnds<E>(s: Settings, o: Observation<E>, from: nat)
    requires ValidSettings(s) && from <= MaxToBlock(s, o)
    ensures from <= ToBlock(s, o, from) < from + LargestBatch(s)
  {
    assert IsBatch(from, ToBlock(s, o, from), MaxToBlock(s, o), BatchSize(s, o, from));
  }

  // A committed batch extends the applied range to its last block.
  lemma {:induction false} Advance<S(!new), E(!new)>(apply: (S, seq<Log<E>>) -> Option<S>, chain: seq<Log<E>>,
                                                     initial: S,
                                                     minBlock: nat, from: nat, to: nat, tables: S)
    requires StrictlySorted(chain) && Composes(apply) && minBlock <= from <= to
    requires apply(initial, Range(chain, minBlock, from - 1)) == Some(tables)
    requires apply(tables, Range(chain, from, to)).Some?
    ensures apply(initial, Range(chain, minBlock, to)) == apply(tables, Range(chain, from, to))
  {
    RangesJoin(chain, minBlock, from - 1, to);
    assert Joined(Range(chain, minBlock, from - 1), Range(chain, from, to), Range(chain, minBlock, to));
  }

  // ---------- the whole life of an indexer ----------

  // The logs up to the cursor.
  ghost function Indexed<E>(chain: seq<Log<E>>, minBlock: nat, cursor: Option<nat>): seq<Log<E>> {
    Range(chain, minBlock, FromBlock(cursor, minBlock) - 1)
  }

  lemma {:induction false} NothingUpTo<E>(chain: seq<Log<E>>, minBlock: nat, head: int)
    ensures Range(chain, minBlock, Larger(minBlock, head + 1) - 1) == Range(chain, minBlock, head)
  {
    if head < minBlock {
      RangeEmpty(chain, minBlock, head);
      RangeEmpty(chain, minBlock, minBlock - 1);
    }
  }

  // Exactly once, from an empty database: after any attempts, whatever failed in them, the tables are
  // those of every log up to the cursor, each applied once, in chain order. Once an attempt settles
  // on a chain that is accepted, they are those of every log up to the head.
  method Replay<S(!new), E(!new)>(settings: Settings, minBlock: nat, apply: (S, seq<Log<E>>) -> Option<S>, initial: S,
                                  attempts: seq<Attempt<E>>, ghost chain: seq<Log<E>>, ghost head: int)
    returns (tables: S, cursor: Option<nat>)
    requires ValidSettings(settings) && StrictlySorted(chain) && FaithfulAttempts(chain, attempts)
    requires Composes(apply) && apply(initial, []) == Some(initial)
    ensures apply(initial, Indexed(chain, minBlock, cursor)) == Some(tables)
    ensures Settles(settings, attempts, minBlock, head) && AcceptsChain(apply, chain, initial, minBlock, head) ==>
              && FromBlock(cursor, minBlock) == Larger(minBlock, head + 1)
              && apply(initial, Range(chain, minBlock, head)) == Some(tables)
  {
    var indexer := new Indexer(settings, minBlock, apply, initial, chain);
    indexer.RunAll(attempts, chain, initial, head);
    tables, cursor := indexer.tables, indexer.cursor;
    NothingUpTo(chain, minBlock, head);
  }

  // Batch independence: two databases filled with other batch sizes, other failures and other retries
  // hold the same tables whenever they are at the same block, as they are once both settle at a head.
  method ReplayTwice<S(!new), E(!new)>(settings: Settings, others: Settings, minBlock: nat,
                                       apply: (S, seq<Log<E>>) -> Option<S>, initial: S,
                                       attempts: seq<Attempt<E>>, retries: seq<Attempt<E>>,
                                       ghost chain: seq<Log<E>>, ghost head: int)
    returns (tables: S, cursor: Option<nat>, tables': S, cursor': Option<nat>)
    requires ValidSettings(settings) && ValidSettings(others) && StrictlySorted(chain)
    requires FaithfulAttempts(chain, attempts) && FaithfulAttempts(chain, retries)
    requires Composes(apply) && apply(initial, []) == Some(initial)
    ensures cursor == cursor' ==> tables == tables'
    ensures && Settles(settings, attempts, minBlock, head) && Settles(others, retries, minBlock, head)
            && AcceptsChain(apply, chain, initial, minBlock, head)
            ==> tables == tables'
  {
    tables, cursor := Replay(settings, minBlock, apply, initial, attempts, chain, head);
    tables', cursor' := Replay(others, minBlock, apply, initial, retries, chain, head);
  }
}
