// Positions on the chain: an epoch and a log index, compared lexicographically.
module Positions {
  import opened Wrappers

  datatype Position = Position(epoch: nat, logIndex: nat) {

    predicate Before(that: Position) {
      epoch < that.epoch || (epoch == that.epoch && logIndex < that.logIndex)
    }

    predicate AtMost(that: Position) {
      epoch < that.epoch || (epoch == that.epoch && logIndex <= that.logIndex)
    }

    // The first position after this one.
    function Next(): Position {
      Position(epoch, logIndex + 1)
    }
  }

  predicate IsLatest(m: Position, s: set<Position>) {
    m in s && forall x | x in s :: x.AtMost(m)
  }

  lemma {:induction false} LatestExists(s: set<Position>)
    requires s != {}
    ensures exists m :: IsLatest(m, s)
  {
    var x :| x in s;
    var rest := s - {x};
    if rest == {} {
      assert s == {x};
      assert IsLatest(x, s);
    } else {
      LatestExists(rest);
      var m :| IsLatest(m, rest);
      assert s == rest + {x};
      assert IsLatest(if m.Before(x) then x else m, s);
    }
  }

  // `ORDER BY epoch DESC, log_index DESC LIMIT 1`.
  function Latest(s: set<Position>): (r: Option<Position>)
    ensures r.None? <==> s == {}
    ensures r.Some? ==> IsLatest(r.value, s)
  {
    if s == {} then None
    else
      LatestExists(s);
      var m :| IsLatest(m, s);
      Some(m)
  }

  lemma {:induction false} LatestIs(s: set<Position>, m: Position)
    requires IsLatest(m, s)
    ensures Latest(s) == Some(m)
  {
    assert IsLatest(Latest(s).value, s);
    assert Latest(s).value.AtMost(m) && m.AtMost(Latest(s).value);
  }
}
