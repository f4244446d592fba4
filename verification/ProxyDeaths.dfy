/** Death notices between the sections of any number of threads. */
module ProxyDeaths {
  import opened TelephonyBase
  import opened ProxySections
  import opened ProxyThreads
  import opened ProxySerial
  import Runs = ProxyRuns

  predicate IsNotice(atom: Atom, e: EpochId) {
    atom.Ran? && atom.section.Died? && atom.section.notice == e
  }

  lemma ApplyMore(log: seq<Atom>, atom: Atom)
    ensures ApplyAll(log + [atom]) == Apply(ApplyAll(log), atom)
  {
    hide Apply;
    assert (log + [atom])[..|log|] == log;
  }

  // ---------- late notices ----------

  lemma LateNotice(sys: System, atom: Atom, e: EpochId)
    requires IsNotice(atom, e) && sys.link.service != Some(e)
    ensures Apply(sys, atom) == sys
  {
  }

  lemma {:induction false} WithoutLateNotice(before: seq<Atom>, atom: Atom, later: seq<Atom>, e: EpochId)
    requires IsNotice(atom, e) && ApplyAll(before).link.service != Some(e)
    ensures ApplyAll(before + [atom] + later) == ApplyAll(before + later)
  {
    hide Apply, IsNotice;
    if later == [] {
      assert before + [atom] + later == before + [atom] && before + later == before;
      ApplyMore(before, atom);
      LateNotice(ApplyAll(before), atom, e);
    } else {
      var front, last := later[..|later| - 1], later[|later| - 1];
      WithoutLateNotice(before, atom, front, e);
      assert before + [atom] + later == (before + [atom] + front) + [last];
      assert before + later == (before + front) + [last];
      ApplyMore(before + [atom] + front, last);
      ApplyMore(before + front, last);
    }
  }

  /** In an interleaving, a notice about a process that is not connected might as well not have arrived. */
  lemma LateNoticesInvisible(moves: seq<Move>, k: nat, e: EpochId)
    requires k < |Log(moves)| && IsNotice(Log(moves)[k], e)
    requires ApplyAll(Log(moves)[..k]).link.service != Some(e)
    ensures Abs(Exec(START, moves)) == ApplyAll(Log(moves)[..k] + Log(moves)[k + 1..])
  {
    hide Step, Abs, Log, IsNotice;
    InterleavingsAreSerial(moves);
    var log := Log(moves);
    WithoutLateNotice(log[..k], log[k], log[k + 1..], e);
    assert log == log[..k] + [log[k]] + log[k + 1..];
  }

  // ---------- one drop for each process ----------

  // At position k of a log, a notice drops the connection to e.
  predicate Drops(log: seq<Atom>, k: nat, e: EpochId) {
    k < |log| && IsNotice(log[k], e) && ApplyAll(log[..k]).link.service == Some(e)
  }

  /** Notices take effect only after the death. */
  lemma {:induction false} NoticedAfterDeath(moves: seq<Move>, k: nat, e: EpochId)
    requires k < |Log(moves)| && IsNotice(Log(moves)[k], e)
    ensures Dead(ApplyAll(Log(moves)[..k]), e)
  {
    hide Step, Apply, AtomOf, Dead;
    var front := moves[..|moves| - 1];
    var atom := AtomOf(Exec(START, front), moves[|moves| - 1]);
    assert Log(moves) == Log(front) + if atom.Some? then [atom.value] else [];
    if k < |Log(front)| {
      NoticedAfterDeath(front, k, e);
      assert Log(moves)[..k] == Log(front)[..k];
    } else {
      assert Log(moves)[..k] == Log(front);
      NoticeIsPending(front, moves[|moves| - 1], e);
    }
  }

  lemma NoticeIsPending(moves: seq<Move>, move: Move, e: EpochId)
    requires AtomOf(Exec(START, moves), move).Some? && IsNotice(AtomOf(Exec(START, moves), move).value, e)
    ensures Dead(ApplyAll(Log(moves)), e)
  {
    hide Step, Log;
    DeathsHold(moves, move.t);
    InterleavingsAreSerial(moves);
  }

  lemma GoneStays(sys: System, atom: Atom, e: EpochId)
    requires Runs.Gone(sys, e)
    ensures Runs.Gone(Apply(sys, atom), e)
  {
  }

  lemma DropLeavesGone(sys: System, atom: Atom, e: EpochId)
    requires IsNotice(atom, e) && Dead(sys, e) && sys.link.service == Some(e)
    ensures Runs.Gone(Apply(sys, atom), e)
  {
  }

  lemma {:induction false} GoneAfterDrop(log: seq<Atom>, i: nat, n: nat, e: EpochId)
    requires Drops(log, i, e) && Dead(ApplyAll(log[..i]), e) && i < n <= |log|
    ensures Runs.Gone(ApplyAll(log[..n]), e)
  {
    hide Apply, Dead, IsNotice, Runs.Gone;
    assert log[..n] == log[..n - 1] + [log[n - 1]];
    ApplyMore(log[..n - 1], log[n - 1]);
    if n == i + 1 {
      DropLeavesGone(ApplyAll(log[..i]), log[i], e);
    } else {
      GoneAfterDrop(log, i, n - 1, e);
      GoneStays(ApplyAll(log[..n - 1]), log[n - 1], e);
    }
  }

  /** In an interleaving, the connection to a process is dropped by at most one of its notices. */
  lemma DroppedAtMostOnce(moves: seq<Move>, i: nat, j: nat, e: EpochId)
    requires Drops(Log(moves), i, e) && Drops(Log(moves), j, e)
    ensures i == j
  {
    hide Log, ApplyAll;
    NoticedAfterDeath(moves, i, e);
    NoticedAfterDeath(moves, j, e);
    if i < j {
      GoneAfterDrop(Log(moves), i, j, e);
    } else if j < i {
      GoneAfterDrop(Log(moves), j, i, e);
    }
  }
}
