/**
 * A pass runs each row of its claim once. Over runs whose every body answers a claim of its own, a row
 * is never run more often than it was claimed, and its attempts say how often that was.
 */
module OneBodyPerClaim {
  import opened Models
  import opened Tables
  import opened Runs
  import opened Leases
  import Draining
  import Runner

  predicate RunsRow(m: Move, i: nat) {
    m.Dispatch? && m.id == i
  }

  function OwingAfter(owing: set<Worker>, m: Move, i: nat): set<Worker> {
    if Takes(m, i) then owing + {m.worker} else if RunsRow(m, i) then owing - {m.worker} else owing
  }

  /** The workers that have claimed a row and not run it since. */
  function Owing(moves: seq<Move>, k: nat, i: nat): set<Worker>
    requires k <= |moves|
  {
    if k == 0 then {} else OwingAfter(Owing(moves, k - 1, i), moves[k - 1], i)
  }

  /** Every body is run by a worker that owes it: each claim of a row is answered at most once. */
  predicate Answers(moves: seq<Move>) {
    forall k :: 0 <= k < |moves| && moves[k].Dispatch? ==> moves[k].worker in Owing(moves, k, moves[k].id)
  }

  predicate Claimed(m: Move, i: nat, who: Worker) {
    Takes(m, i) && m.worker == who
  }

  predicate NotRunSince(moves: seq<Move>, j: nat, k: nat, i: nat, who: Worker)
    requires j < k <= |moves|
  {
    forall n :: j < n < k ==> !(RunsRow(moves[n], i) && moves[n].worker == who)
  }

  /** That is: it claimed the row earlier, and has run no body of it in between. */
  lemma {:induction false} OwingIsExact(moves: seq<Move>, k: nat, i: nat, who: Worker)
    requires k <= |moves|
    ensures who in Owing(moves, k, i) <==>
              exists j :: 0 <= j < k && Claimed(moves[j], i, who) && NotRunSince(moves, j, k, i, who)
    decreases k
  {
    if k > 0 {
      OwingIsExact(moves, k - 1, i, who);
      var m := moves[k - 1];
      if Claimed(m, i, who) {
        assert NotRunSince(moves, k - 1, k, i, who);
      } else if who in Owing(moves, k, i) {
        var j :| 0 <= j < k - 1 && Claimed(moves[j], i, who) && NotRunSince(moves, j, k - 1, i, who);
        assert NotRunSince(moves, j, k, i, who);
      }
      if j :| 0 <= j < k && Claimed(moves[j], i, who) && NotRunSince(moves, j, k, i, who) {
        if j < k - 1 {
          assert NotRunSince(moves, j, k - 1, i, who);
        }
      }
    }
  }

  /** How many of the first `k` moves ran the row's body. */
  function BodiesOf(moves: seq<Move>, k: nat, i: nat): nat
    requires k <= |moves|
  {
    if k == 0 then 0 else BodiesOf(moves, k - 1, i) + (if RunsRow(moves[k - 1], i) then 1 else 0)
  }

  lemma {:induction false} BodiesAndDebts(moves: seq<Move>, k: nat, i: nat)
    requires Answers(moves) && k <= |moves|
    ensures BodiesOf(moves, k, i) + |Owing(moves, k, i)| <= ClaimsOf(moves, k, i)
    decreases k
  {
    if k > 0 {
      BodiesAndDebts(moves, k - 1, i);
      var before, m := Owing(moves, k - 1, i), moves[k - 1];
      if RunsRow(m, i) {
        assert m.worker in before;
        assert |before - {m.worker}| == |before| - 1;
      } else if Takes(m, i) {
        assert |before + {m.worker}| <= |before| + 1;
      }
    }
  }

  /** A row is run at most as often as it was attempted. */
  lemma BodiesNeverExceedAttempts(env: Env, moves: seq<Move>, k: nat, i: nat)
    requires IsRun(env, moves) && Answers(moves) && k <= |moves|
    ensures var rows := StateAt(env, EMPTY, moves, k).rows;
            BodiesOf(moves, k, i) <= if i < |rows| then rows[i].attempts else 0
  {
    hide StateAt, IsRun, Answers, BodiesOf, ClaimsOf;
    BodiesAndDebts(moves, k, i);
    AttemptsAreClaims(env, moves, k, i);
  }

  lemma {:induction false} OwingOfPrefix(moves: seq<Move>, more: seq<Move>, k: nat, i: nat)
    requires k <= |moves|
    ensures Owing(moves + more, k, i) == Owing(moves, k, i)
    decreases k
  {
    if k > 0 {
      OwingOfPrefix(moves, more, k - 1, i);
      assert (moves + more)[k - 1] == moves[k - 1];
    }
  }

  lemma OneMoreAnswer(moves: seq<Move>, m: Move)
    requires Answers(moves) && (m.Dispatch? ==> m.worker in Owing(moves, |moves|, m.id))
    ensures Answers(moves + [m])
    ensures forall i :: Owing(moves + [m], |moves| + 1, i) == OwingAfter(Owing(moves, |moves|, i), m, i)
  {
    hide Owing;
    forall k, i | 0 <= k <= |moves| && 0 <= i
      ensures Owing(moves + [m], k, i) == Owing(moves, k, i)
    {
      OwingOfPrefix(moves, [m], k, i);
    }
    forall i: nat
      ensures Owing(moves + [m], |moves| + 1, i) == OwingAfter(Owing(moves, |moves|, i), m, i)
    {
      OwingNext(moves + [m], |moves|, i);
    }
  }

  lemma OwingNext(moves: seq<Move>, k: nat, i: nat)
    requires k < |moves|
    ensures Owing(moves, k + 1, i) == OwingAfter(Owing(moves, k, i), moves[k], i)
  {
  }

  /** The moves of a pass answer the claim it made, one body each. */
  lemma APassAnswersItsClaim(
    ids: seq<nat>, limit: nat, table: set<ActionKind>, responses: nat -> Runner.Response, now: Instant, who: Worker)
    requires Distinct(ids)
    ensures Answers(Draining.PassMoves(ids, limit, table, responses, now, who))
  {
    var moves := Draining.PassMoves(ids, limit, table, responses, now, who);
    forall k | 0 <= k < |moves| && moves[k].Dispatch?
      ensures moves[k].worker in Owing(moves, k, moves[k].id)
    {
      var i := moves[k].id;
      assert i == ids[k - 2] && moves[k].worker == who;
      assert Claimed(moves[1], i, who);
      assert NotRunSince(moves, 1, k, i, who);
      OwingIsExact(moves, k, i, who);
    }
  }
}
