/**
 A run in which a vote carries over to another winner: "old" loses one verdict to "new" and falls
 silent; "fresh" takes its place with twenty replies of its own, and the first verdict against it
 makes "new" the winner.
 */
module ProbeCarryOver {
  import opened Ranks
  import opened Probe
  import opened ProbeTheorems

  const SLOW := 100_000_000
  const QUICK := 50_000_000

  /** A moment when samples of time 0 no longer count. */
  const LATER: Time := 400_000_000_000

  const EARLY_CLOCK := Clock(0, 0, 0, 0)
  const LATE_CLOCK := Clock(LATER, LATER, LATER, LATER)

  // ---- Steady samples ----

  function Copies(n: nat, s: Sample): (r: seq<Sample>)
    ensures |r| == n
  {
    if n == 0 then [] else Copies(n - 1, s) + [s]
  }

  function Steady(n: nat, d: int): (r: seq<int>)
    ensures |r| == n && forall k :: 0 <= k < n ==> r[k] == d
  {
    if n == 0 then [] else Steady(n - 1, d) + [d]
  }

  lemma {:induction false} CopiesReply(w: seq<Sample>, n: nat, s: Sample, now: Time)
    requires s.ok
    ensures Replies(w + Copies(n, s), now) == Replies(w, now) + (if Fresh(s, now) then Steady(n, s.duration) else [])
    ensures Recent(w + Copies(n, s), now) == Recent(w, now) + (if Fresh(s, now) then n else 0)
  {
    var all := w + Copies(n, s);
    if n == 0 {
      assert all == w;
    } else {
      CopiesReply(w, n - 1, s, now);
      assert all[..|all| - 1] == w + Copies(n - 1, s) && all[|all| - 1] == s;
    }
  }

  /** Twenty equal recent replies, whatever came before that no longer counts. */
  lemma SteadyGrade(w: seq<Sample>, s: Sample, now: Time)
    requires s.ok && Fresh(s, now) && Replies(w, now) == [] && Recent(w, now) == 0
    ensures GradeOf(w + Copies(20, s), now) == Grade(20, 20, s.duration, 0.0)
  {
    CopiesReply(w, 20, s, now);
    var values := Replies(w + Copies(20, s), now);
    assert values == Steady(20, s.duration);
    hide Percentile, Replies, Recent;
    PercentileIs(values, 95);
  }

  lemma StaleGrade(s: Sample, now: Time)
    requires s.ok && !Fresh(s, now)
    ensures Replies(Copies(20, s), now) == [] && Recent(Copies(20, s), now) == 0
  {
    CopiesReply([], 20, s, now);
    assert [] + Copies(20, s) == Copies(20, s);
  }

  // ---- Building runs ----

  /** `r` differs from `q` by samples only: those of `name` are `w`, and there are `n` more in all. */
  ghost predicate Sampled(q: Region, name: string, w: seq<Sample>, n: nat, r: Region) {
    && Window(r, name) == w && r.revision == q.revision + n
    && (forall m :: m != name ==> Window(r, m) == Window(q, m))
    && r.winner == q.winner && r.challenger == q.challenger && r.votes == q.votes && r.lastVote == q.lastVote
  }

  lemma OneMore(states: seq<Region>, steps: seq<Step>, step: Step)
    requires IsRun(states, steps)
    ensures IsRun(states + [Next(states[|steps|], step)], steps + [step])
  {
    hide Next;
  }

  lemma {:induction false} RecordCopies(states0: seq<Region>, steps0: seq<Step>, name: string, s: Sample, n: nat)
    returns (states: seq<Region>, steps: seq<Step>)
    requires IsRun(states0, steps0) && |Window(states0[|steps0|], name)| + n <= KEPT
    ensures IsRun(states, steps) && states0 <= states && steps0 <= steps
    ensures forall k :: |steps0| <= k < |steps| ==> steps[k].Recorded?
    ensures Sampled(states0[|steps0|], name, Window(states0[|steps0|], name) + Copies(n, s), n, states[|steps|])
  {
    if n == 0 {
      states, steps := states0, steps0;
    } else {
      var states1, steps1 := RecordCopies(states0, steps0, name, s, n - 1);
      states, steps := states1 + [Next(states1[|steps1|], Recorded(name, s))], steps1 + [Recorded(name, s)];
      OneMore(states1, steps1, Recorded(name, s));
    }
  }

  // ---- The run ----

  const OLD_EARLY := Sample(0, SLOW, true)
  const NEW_EARLY := Sample(0, QUICK, true)
  const FRESH_LATE := Sample(LATER, SLOW, true)
  const NEW_LATE := Sample(LATER, QUICK, true)

  /** "new" wins its first verdict, against "old". */
  lemma FirstVerdict(r: Region)
    requires Window(r, "old") == Copies(20, OLD_EARLY) && Window(r, "new") == Copies(20, NEW_EARLY)
    requires r.winner == "" && r.challenger == "" && r.votes == 0
    ensures VerdictOf(r, "old", "new", EARLY_CLOCK) == Verdict("old", "new", true)
    ensures Vote(r, VerdictOf(r, "old", "new", EARLY_CLOCK))
         == r.(winner := "old", challenger := "new", votes := 1, lastVote := r.revision)
  {
    SteadyGrade([], OLD_EARLY, 0);
    SteadyGrade([], NEW_EARLY, 0);
    assert [] + Copies(20, OLD_EARLY) == Copies(20, OLD_EARLY) && [] + Copies(20, NEW_EARLY) == Copies(20, NEW_EARLY);
    hide GradeOf;
  }

  /** "old" has fallen silent, so "fresh" is the champion, and falls at once. */
  lemma SecondVerdict(r: Region)
    requires Window(r, "old") == Copies(20, OLD_EARLY) && Window(r, "fresh") == Copies(20, FRESH_LATE)
    requires Window(r, "new") == Copies(20, NEW_EARLY) + Copies(20, NEW_LATE)
    requires r.winner == "old" && r.challenger == "new" && r.votes == 1 && r.revision != r.lastVote
    ensures VerdictOf(r, "fresh", "new", LATE_CLOCK) == Verdict("fresh", "new", true)
    ensures Vote(r, VerdictOf(r, "fresh", "new", LATE_CLOCK)).winner == "new"
  {
    StaleGrade(OLD_EARLY, LATER);
    StaleGrade(NEW_EARLY, LATER);
    SteadyGrade([], FRESH_LATE, LATER);
    SteadyGrade(Copies(20, NEW_EARLY), NEW_LATE, LATER);
    assert [] + Copies(20, FRESH_LATE) == Copies(20, FRESH_LATE);
    assert GradeOf(Copies(20, OLD_EARLY), LATER).count == 0;
    hide GradeOf;
  }

  /** The run up to the first verdict. */
  lemma OldLosesOnce() returns (states: seq<Region>, steps: seq<Step>, j: nat)
    ensures IsRun(states, steps) && |steps| == j + 1 && VerdictAt(states[j], steps[j]) == Verdict("old", "new", true)
    ensures forall k :: 0 <= k < j ==> steps[k].Recorded?
    ensures var r := states[|steps|];
      && Window(r, "old") == Copies(20, OLD_EARLY)
      && Window(r, "new") == Copies(20, NEW_EARLY)
      && Window(r, "fresh") == []
      && r.winner == "old" && r.challenger == "new" && r.votes == 1 && r.lastVote == r.revision
  {
    hide Copies, VerdictOf, Vote, Record;
    states, steps := RecordCopies([NEW_REGION], [], "old", OLD_EARLY, 20);
    assert [] + Copies(20, OLD_EARLY) == Copies(20, OLD_EARLY) && [] + Copies(20, NEW_EARLY) == Copies(20, NEW_EARLY);
    assert Window(states[|steps|], "fresh") == [];
    states, steps := RecordCopies(states, steps, "new", NEW_EARLY, 20);
    assert Window(states[|steps|], "fresh") == [];
    j := |steps|;
    FirstVerdict(states[j]);
    var step := Compared("old", "new", EARLY_CLOCK);
    OneMore(states, steps, step);
    states, steps := states + [Next(states[j], step)], steps + [step];
  }

  /** And on to the second. */
  lemma FreshFalls() returns (states: seq<Region>, steps: seq<Step>, j: nat, i: nat)
    ensures IsRun(states, steps) && j < i && |steps| == i + 1
    ensures VerdictAt(states[j], steps[j]) == Verdict("old", "new", true)
    ensures VerdictAt(states[i], steps[i]) == Verdict("fresh", "new", true)
    ensures steps[i] == Compared("fresh", "new", LATE_CLOCK) && states[i].winner == "old" && states[i].votes == 1
    ensures states[i].challenger == "new" && states[i + 1].winner == "new"
    ensures Window(states[i], "old") == Copies(20, OLD_EARLY) && Window(states[i], "fresh") == Copies(20, FRESH_LATE)
    ensures forall k :: 0 <= k < i && k != j ==> steps[k].Recorded?
  {
    hide Copies, VerdictOf, Vote, Record;
    states, steps, j := OldLosesOnce();
    ghost var before := steps;
    states, steps := RecordCopies(states, steps, "fresh", FRESH_LATE, 20);
    assert [] + Copies(20, FRESH_LATE) == Copies(20, FRESH_LATE);
    states, steps := RecordCopies(states, steps, "new", NEW_LATE, 20);
    assert steps[j] == before[j];
    i := |steps|;
    SecondVerdict(states[i]);
    var step := Compared("fresh", "new", LATE_CLOCK);
    OneMore(states, steps, step);
    states, steps := states + [Next(states[i], step)], steps + [step];
  }

  /**
   A winner with twenty recent replies is overthrown by the only verdict ever given against it: the
   other verdict for the challenger went against a winner that was then given up.
   */
  lemma VoteMayCarryOver() returns (states: seq<Region>, steps: seq<Step>, j: nat, i: nat)
    ensures IsRun(states, steps) && j < i < |steps| && Overthrows(states, steps, i)
    ensures Backed(states, steps, i, j, "new")
    ensures VerdictAt(states[j], steps[j]).Verdict? && VerdictAt(states[j], steps[j]).champion == "old"
    ensures VerdictAt(states[i], steps[i]).champion == "fresh"
    ensures GivesUp(states[i], steps[i]) && Graded(states[i], "fresh", LATER).count == REPLIES
  {
    states, steps, j, i := FreshFalls();
    ChampionUnlessGivenUp(states[i], steps[i]);
    SteadyGrade([], FRESH_LATE, LATER);
    assert [] + Copies(20, FRESH_LATE) == Copies(20, FRESH_LATE);
    VotesAreStanding(states, steps, i);
    var k :| 0 <= k < i && Backed(states, steps, i, k, "new");
    assert FavoursAt(states, steps, k, "new");
    assert k == j;
  }
}
