// The batch indexer run with the Service Rewards Actor's updates: after every commit the tables are
// those of the run of all logs up to the cursor, so everything proved of runs holds of them.
module CommittedTables {
  import opened Wrappers
  import opened Events
  import opened Bindings
  import opened PairTables
  import opened OwnershipSpec
  import opened Ledger
  import opened Ownership
  import opened LogSorting
  import opened BatchIndexer
  import opened Acceptance

  function Applier(w: World): (Tables, seq<Log<Event>>) -> Option<Tables> {
    (t: Tables, logs: seq<Log<Event>>) => match Run(w, t, logs) case Success(t') => Some(t') case Failure(_) => None
  }

  lemma {:induction false} ApplierComposes(w: World)
    ensures Composes(Applier(w))
  {
    forall t, a, b, ab {:trigger Applier(w)(t, a), Joined(a, b, ab)} |
      Joined(a, b, ab) && Applier(w)(t, a).Some? && Applier(w)(Applier(w)(t, a).value, b).Some?
      ensures Applier(w)(t, ab) == Applier(w)(Applier(w)(t, a).value, b)
    {
      RunAppend(w, t, a, b);
    }
  }

  // A chain that the run of its logs accepts is accepted batch by batch, however it is split.
  lemma {:induction false} ChainAccepted(w: World, chain: seq<Log<Event>>, minBlock: nat, head: int)
    requires StrictlySorted(chain) && Run(w, EMPTY, Range(chain, minBlock, head)).Success?
    ensures AcceptsChain(Applier(w), chain, EMPTY, minBlock, head)
  {
    forall a: nat, b: nat | minBlock <= a <= b <= head
      ensures AcceptsBatch(Applier(w), chain, EMPTY, minBlock, a, b)
    {
      PartAccepted(w, chain, minBlock, b, head);
      RangesJoin(chain, minBlock, a - 1, b);
      RunAppend(w, EMPTY, Range(chain, minBlock, a - 1), Range(chain, a, b));
    }
  }

  lemma {:induction false} PartAccepted(w: World, chain: seq<Log<Event>>, minBlock: nat, mid: int, head: int)
    requires StrictlySorted(chain) && minBlock <= mid + 1 && mid <= head
    requires Run(w, EMPTY, Range(chain, minBlock, head)).Success?
    ensures Run(w, EMPTY, Range(chain, minBlock, mid)).Success?
  {
    RangesJoin(chain, minBlock, mid, head);
    RunAppend(w, EMPTY, Range(chain, minBlock, mid), Range(chain, mid + 1, head));
  }

  // A rejection is for good: the cursor never reaches a block up to which the chain is rejected.
  lemma {:induction false} RejectedForGood(w: World, chain: seq<Log<Event>>, minBlock: nat, cursor: Option<nat>,
                                           block: nat)
    requires StrictlySorted(chain) && Run(w, EMPTY, Indexed(chain, minBlock, cursor)).Success?
    requires Run(w, EMPTY, Range(chain, minBlock, block)).Failure?
    ensures FromBlock(cursor, minBlock) <= block
  {
    if block < FromBlock(cursor, minBlock) {
      if block < minBlock {
        RangeEmpty(chain, minBlock, block);
      } else {
        PartAccepted(w, chain, minBlock, block, FromBlock(cursor, minBlock) - 1);
      }
      assert false;
    }
  }

  // That is when none of its logs is rejected.
  lemma {:induction false} RangeAccepted(w: World, chain: seq<Log<Event>>, minBlock: nat, head: int)
    requires Increasing(chain) && NoneRejected(w, Range(chain, minBlock, head))
    ensures Run(w, EMPTY, Range(chain, minBlock, head)).Success?
  {
    RangeIncreasing(chain, minBlock, head);
    RunTold(w, Range(chain, minBlock, head));
  }

  // The Service Rewards Actor's indexer from an empty database, through any attempts: the tables are
  // those of the run of every log up to the cursor, they own each position as that log specifies and
  // never twice, and the cursor stays short of every rejected log. Once an attempt settles, they are
  // those of every log up to the head, if the run of those logs is accepted.
  method IndexActor(w: World, settings: Settings, minBlock: nat, attempts: seq<Attempt<Event>>,
                    ghost chain: seq<Log<Event>>, ghost head: int)
    returns (tables: Tables, cursor: Option<nat>)
    requires ValidSettings(settings) && StrictlySorted(chain) && FaithfulAttempts(chain, attempts)
    ensures Run(w, EMPTY, Indexed(chain, minBlock, cursor)) == Success(tables)
    ensures Increasing(chain) ==> OwnedAsTold(w, tables, Indexed(chain, minBlock, cursor))
    ensures forall block: nat :: Run(w, EMPTY, Range(chain, minBlock, block)).Failure? ==>
                                   FromBlock(cursor, minBlock) <= block
    ensures Settles(settings, attempts, minBlock, head) && Run(w, EMPTY, Range(chain, minBlock, head)).Success? ==>
              && FromBlock(cursor, minBlock) == Larger(minBlock, head + 1)
              && Run(w, EMPTY, Range(chain, minBlock, head)) == Success(tables)
    ensures && Settles(settings, attempts, minBlock, head) && Increasing(chain)
            && NoneRejected(w, Range(chain, minBlock, head))
            ==> FromBlock(cursor, minBlock) == Larger(minBlock, head + 1)
  {
    ApplierComposes(w);
    if Increasing(chain) && NoneRejected(w, Range(chain, minBlock, head)) {
      RangeAccepted(w, chain, minBlock, head);
    }
    if Run(w, EMPTY, Range(chain, minBlock, head)).Success? {
      ChainAccepted(w, chain, minBlock, head);
    }
    tables, cursor := Replay(settings, minBlock, Applier(w), EMPTY, attempts, chain, head);
    assert Applier(w)(EMPTY, Indexed(chain, minBlock, cursor)) == Some(tables);
    assert Applier(w)(EMPTY, Range(chain, minBlock, head)) == Some(tables) ==>
        Run(w, EMPTY, Range(chain, minBlock, head)) == Success(tables);
    if Increasing(chain) {
      RunOwned(w, chain, minBlock, cursor, tables);
    }
    forall block: nat | Run(w, EMPTY, Range(chain, minBlock, block)).Failure?
      ensures FromBlock(cursor, minBlock) <= block
    {
      RejectedForGood(w, chain, minBlock, cursor, block);
    }
  }

  ghost predicate OwnedAsTold(w: World, tables: Tables, logs: seq<Log<Event>>) {
    && TableDisjoint(tables.pairs)
    && forall pair, p :: Owner(View(tables.pairs, pair), p) == SpecOwner(w.calendar, pair, logs, p)
  }

  lemma {:induction false} RunOwned(w: World, chain: seq<Log<Event>>, minBlock: nat, cursor: Option<nat>,
                                    tables: Tables)
    requires Increasing(chain) && Run(w, EMPTY, Indexed(chain, minBlock, cursor)) == Success(tables)
    ensures OwnedAsTold(w, tables, Indexed(chain, minBlock, cursor))
  {
    var done := Indexed(chain, minBlock, cursor);
    RangeIncreasing(chain, minBlock, FromBlock(cursor, minBlock) - 1);
    RunDisjoint(w, done);
    forall pair, p
      ensures Owner(View(tables.pairs, pair), p) == SpecOwner(w.calendar, pair, done, p)
    {
      RunOwner(w, done, pair, p);
    }
  }
}
