/** When a probe winner is replaced, over every run of samples and comparisons. */
module ProbeTheorems {
  import opened Probe

  datatype Step = Recorded(name: string, sample: Sample) | Compared(a: string, b: string, clock: Clock)

  function Next(r: Region, step: Step): Region {
    match step
    case Recorded(name, sample) => Record(r, name, sample)
    case Compared(a, b, clock) => Vote(r, VerdictOf(r, a, b, clock))
  }

  function VerdictAt(r: Region, step: Step): Verdict {
    match step
    case Recorded(_, _) => NoVerdict
    case Compared(a, b, clock) => VerdictOf(r, a, b, clock)
  }

  predicate IsRun(states: seq<Region>, steps: seq<Step>) {
    && |states| == |steps| + 1 && states[0] == NEW_REGION
    && forall k :: 0 <= k < |steps| ==> states[k + 1] == Next(states[k], steps[k])
  }

  predicate FavoursAt(states: seq<Region>, steps: seq<Step>, k: nat, name: string)
    requires |states| == |steps| + 1 && k < |steps|
  {
    var v := VerdictAt(states[k], steps[k]);
    v.Verdict? && v.favourable && v.candidate == name
  }

  /** Step `k` neither decides against `name` nor for a rival of it. */
  predicate SparesAt(states: seq<Region>, steps: seq<Step>, k: nat, name: string)
    requires |states| == |steps| + 1 && k < |steps|
  {
    var v := VerdictAt(states[k], steps[k]);
    v.Verdict? ==> (v.favourable <==> v.candidate == name)
  }

  /** A verdict at step `j` for `name` that nothing before step `i` took back. */
  predicate Standing(states: seq<Region>, steps: seq<Step>, i: nat, j: nat, name: string)
    requires |states| == |steps| + 1 && i <= |steps|
  {
    && j < i && FavoursAt(states, steps, j, name)
    && forall k :: j < k < i ==> SparesAt(states, steps, k, name)
  }

  /** A vote for `name` that was opened at step `j` is still open before step `i`. */
  predicate Open(states: seq<Region>, j: nat, i: nat, name: string)
    requires j < |states| && i < |states|
  {
    states[i].votes == 1 && states[i].challenger == name && states[i].lastVote == states[j].revision
  }

  /** The verdict at step `j` opened a vote for `name` that stands and is open up to step `i`. */
  predicate Backed(states: seq<Region>, steps: seq<Step>, i: nat, j: nat, name: string)
    requires |states| == |steps| + 1 && i <= |steps|
  {
    Standing(states, steps, i, j, name) && forall k :: j < k <= i ==> Open(states, j, k, name)
  }

  /** One vote at most is open, and it is backed by a verdict at the revision noted. */
  predicate VoteOk(states: seq<Region>, steps: seq<Step>, i: nat)
    requires |states| == |steps| + 1 && i <= |steps|
  {
    var r := states[i];
    && 0 <= r.votes <= 1 && r.lastVote <= r.revision
    && (r.votes == 1 ==> exists j :: 0 <= j < i && Backed(states, steps, i, j, r.challenger))
  }

  lemma StandingGoesOn(states: seq<Region>, steps: seq<Step>, i: nat, j: nat, name: string)
    requires |states| == |steps| + 1 && i < |steps|
    requires Standing(states, steps, i, j, name) && SparesAt(states, steps, i, name)
    ensures Standing(states, steps, i + 1, j, name)
  {
    hide SparesAt, FavoursAt;
  }

  lemma BackingGoesOn(states: seq<Region>, steps: seq<Step>, i: nat, j: nat, name: string)
    requires |states| == |steps| + 1 && i < |steps| && Backed(states, steps, i, j, name)
    requires SparesAt(states, steps, i, name) && Open(states, j, i + 1, name)
    ensures Backed(states, steps, i + 1, j, name)
  {
    hide SparesAt, FavoursAt, Open, Standing;
    StandingGoesOn(states, steps, i, j, name);
  }

  lemma {:induction false} VotesAreStanding(states: seq<Region>, steps: seq<Step>, i: nat)
    requires IsRun(states, steps) && i <= |steps|
    ensures VoteOk(states, steps, i)
  {
    hide VerdictOf;
    if i > 0 {
      VotesAreStanding(states, steps, i - 1);
      var r, r', v := states[i - 1], states[i], VerdictAt(states[i - 1], steps[i - 1]);
      assert r' == Next(r, steps[i - 1]);
      if r'.votes == 1 {
        if r.votes == 1 && r'.challenger == r.challenger && r'.lastVote == r.lastVote {
          var j :| 0 <= j < i - 1 && Backed(states, steps, i - 1, j, r.challenger);
          assert Open(states, j, i - 1, r.challenger);
          BackingGoesOn(states, steps, i - 1, j, r.challenger);
        } else {
          assert FavoursAt(states, steps, i - 1, r'.challenger) && Backed(states, steps, i, i - 1, r'.challenger);
        }
      }
    }
  }

  /** Step `i` replaces the winner it starts from, as opposed to giving a silent one up. */
  predicate Overthrows(states: seq<Region>, steps: seq<Step>, i: nat)
    requires |states| == |steps| + 1 && i < |steps|
  {
    var v := VerdictAt(states[i], steps[i]);
    v.Verdict? && states[i + 1].winner != v.champion
  }

  /**
   A winner that still has enough recent replies is replaced only by a challenger with a second
   favourable verdict, at another sample revision than a first one, and with no losing verdict and
   no rival vote in between.
   */
  lemma WinnerFallsToTwoVerdicts(states: seq<Region>, steps: seq<Step>, i: nat)
    requires IsRun(states, steps) && i < |steps| && Overthrows(states, steps, i)
    ensures FavoursAt(states, steps, i, states[i + 1].winner)
    ensures exists j ::
              0 <= j < i && Backed(states, steps, i, j, states[i + 1].winner) && states[j].revision < states[i].revision
  {
    hide VerdictOf, Standing;
    VotesAreStanding(states, steps, i);
    var r, r' := states[i], states[i + 1];
    assert r' == Next(r, steps[i]);
    var j :| 0 <= j < i && Backed(states, steps, i, j, r.challenger);
    assert Open(states, j, i, r.challenger);
    assert r'.winner == r.challenger;
  }

  // ---- Against whom ----

  /** A comparison that gives a silent winner up in favour of its first side. */
  predicate GivesUp(r: Region, step: Step) {
    && step.Compared? && VerdictOf(r, step.a, step.b, step.clock).Verdict?
    && WinnerIsSilent(r, step.clock) && step.a != r.winner
  }

  lemma ChampionUnlessGivenUp(r: Region, step: Step)
    requires VerdictAt(r, step).Verdict?
    ensures VerdictAt(r, step).champion == r.winner <==> !GivesUp(r, step)
  {
    hide GradeOf, Better;
  }

  /** While a vote stays open the winner changes exactly by being given up. */
  lemma OpenVoteKeepsWinner(states: seq<Region>, steps: seq<Step>, j: nat, k: nat, name: string)
    requires IsRun(states, steps) && k < |steps| && j < |states|
    requires Open(states, j, k, name) && Open(states, j, k + 1, name)
    ensures states[k + 1].winner == states[k].winner <==> !GivesUp(states[k], steps[k])
  {
    assert states[k + 1] == Next(states[k], steps[k]);
    if VerdictAt(states[k], steps[k]).Verdict? {
      ChampionUnlessGivenUp(states[k], steps[k]);
    }
    hide VerdictOf, WinnerIsSilent;
  }

  /** From the first verdict to the second one `winner` is the winner, and both go against it. */
  predicate AgainstSame(states: seq<Region>, steps: seq<Step>, j: nat, i: nat, winner: string)
    requires |states| == |steps| + 1 && j < i < |steps|
  {
    var v, w := VerdictAt(states[j], steps[j]), VerdictAt(states[i], steps[i]);
    && v.Verdict? && v.champion == winner && w.Verdict? && w.champion == winner
    && forall k :: j < k <= i ==> states[k].winner == winner
  }

  lemma {:induction false} WinnerStaysUpTo(states: seq<Region>, steps: seq<Step>, j: nat, i: nat, k: nat, name: string)
    requires IsRun(states, steps) && j < k <= i < |steps| && Backed(states, steps, i, j, name)
    requires forall n :: j < n <= i ==> !GivesUp(states[n], steps[n])
    ensures states[k].winner == states[j + 1].winner
    decreases k
  {
    hide GivesUp, Standing, Open, Next;
    if k > j + 1 {
      WinnerStaysUpTo(states, steps, j, i, k - 1, name);
      OpenVoteKeepsWinner(states, steps, j, k - 1, name);
    }
  }

  lemma OpeningLeavesChampion(states: seq<Region>, steps: seq<Step>, j: nat, name: string)
    requires IsRun(states, steps) && j < |steps| && FavoursAt(states, steps, j, name) && Open(states, j, j + 1, name)
    ensures VerdictAt(states[j], steps[j]).Verdict? && states[j + 1].winner == VerdictAt(states[j], steps[j]).champion
  {
    hide VerdictOf;
    assert states[j + 1] == Next(states[j], steps[j]);
  }

  /**
   Both verdicts go against one winner, which is the winner all the while, exactly if no comparison
   after the first of them gives a silent winner up.  `ProbeCarryOver` has a run where one does.
   */
  lemma SameWinnerExactly(states: seq<Region>, steps: seq<Step>, j: nat, i: nat, name: string)
    requires IsRun(states, steps) && j < i < |steps|
    requires Overthrows(states, steps, i) && Backed(states, steps, i, j, name)
    ensures AgainstSame(states, steps, j, i, VerdictAt(states[i], steps[i]).champion)
            <==> forall k :: j < k <= i ==> !GivesUp(states[k], steps[k])
  {
    hide GivesUp, VerdictAt, Next, Open, SparesAt, FavoursAt;
    assert Open(states, j, j + 1, name) && Standing(states, steps, i, j, name);
    OpeningLeavesChampion(states, steps, j, name);
    ChampionUnlessGivenUp(states[i], steps[i]);
    var winner := VerdictAt(states[i], steps[i]).champion;
    if forall k :: j < k <= i ==> !GivesUp(states[k], steps[k]) {
      forall k | j < k <= i
        ensures states[k].winner == states[j + 1].winner
      {
        WinnerStaysUpTo(states, steps, j, i, k, name);
      }
    } else if AgainstSame(states, steps, j, i, winner) {
      var k :| j < k <= i && GivesUp(states[k], steps[k]);
      if k < i {
        OpenVoteKeepsWinner(states, steps, j, k, name);
      }
    }
  }

  lemma {:induction false} OpenVoteStays(states: seq<Region>, steps: seq<Step>, j: nat, i: nat, name: string)
    requires IsRun(states, steps) && j < i <= |steps| && Open(states, j, j + 1, name)
    requires forall k :: j < k < i ==> SparesAt(states, steps, k, name)
    requires forall k :: j < k < i && FavoursAt(states, steps, k, name) ==> states[k].revision == states[j].revision
    ensures Open(states, j, i, name)
  {
    hide VerdictOf;
    if i > j + 1 {
      OpenVoteStays(states, steps, j, i - 1, name);
      assert states[i] == Next(states[i - 1], steps[i - 1]);
      assert SparesAt(states, steps, i - 1, name);
      assert FavoursAt(states, steps, i - 1, name) ==> states[i - 1].revision == states[j].revision;
    }
  }

  /** Conversely, the next favourable verdict at another revision makes the challenger the winner. */
  lemma TwoVerdictsSuffice(states: seq<Region>, steps: seq<Step>, j: nat, i: nat, name: string)
    requires IsRun(states, steps) && j < i < |steps| && Open(states, j, j + 1, name)
    requires forall k :: j < k < i ==> SparesAt(states, steps, k, name)
    requires forall k :: j < k < i && FavoursAt(states, steps, k, name) ==> states[k].revision == states[j].revision
    requires FavoursAt(states, steps, i, name) && states[i].revision != states[j].revision
    ensures states[i + 1].winner == name
  {
    OpenVoteStays(states, steps, j, i, name);
    hide VerdictOf;
    assert states[i + 1] == Next(states[i], steps[i]);
  }

  /** Any other change of the winner gives up one without enough recent replies, or the first one. */
  lemma OtherwiseOnlySilentWinnersGo(r: Region, step: Step)
    requires Next(r, step).winner != r.winner
    ensures step.Compared?
    ensures WinnerIsSilent(r, step.clock)
            || (VerdictAt(r, step).Verdict? && VerdictAt(r, step).champion == r.winner && VerdictAt(r, step).favourable)
  {
    hide GradeOf, Better;
  }

  function Overthrown(states: seq<Region>, steps: seq<Step>, i: nat): nat
    requires |states| == |steps| + 1 && i <= |steps|
  {
    if i == 0 then 0 else Overthrown(states, steps, i - 1) + (if Overthrows(states, steps, i - 1) then 1 else 0)
  }

  function Samples(steps: seq<Step>, i: nat): nat
    requires i <= |steps|
  {
    if i == 0 then 0 else Samples(steps, i - 1) + (if steps[i - 1].Recorded? then 1 else 0)
  }

  /** Winners are overthrown no more often than samples are recorded. */
  lemma {:induction false} ChallengesWithinSamples(states: seq<Region>, steps: seq<Step>, i: nat)
    requires IsRun(states, steps) && i <= |steps|
    ensures Overthrown(states, steps, i) <= states[i].lastVote <= states[i].revision == Samples(steps, i)
  {
    hide VerdictOf, VoteOk;
    if i > 0 {
      ChallengesWithinSamples(states, steps, i - 1);
      OverthrowNeedsNewSamples(states, steps, i - 1);
      assert states[i] == Next(states[i - 1], steps[i - 1]);
    }
  }

  lemma OverthrowNeedsNewSamples(states: seq<Region>, steps: seq<Step>, i: nat)
    requires IsRun(states, steps) && i < |steps|
    ensures Overthrows(states, steps, i) ==> states[i].lastVote < states[i + 1].lastVote
  {
    hide VerdictOf, Standing;
    VotesAreStanding(states, steps, i);
    assert states[i + 1] == Next(states[i], steps[i]);
  }
}
