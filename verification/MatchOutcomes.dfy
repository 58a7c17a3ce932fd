/** What a settlement says of each player. */
module MatchOutcomes {
  import opened World
  import opened Simulation2v2
  import opened MatchSlots
  import opened MatchRules

  predicate Gone(s: Slot) {
    s.surrendered || s.abandoned
  }

  /** The verdict of the battle, which is team A's, from the team's side. */
  predicate WonBy(status: Status, team: TeamId) {
    if team == TeamA then status == Victory else status == Defeat
  }

  predicate LostBy(status: Status, team: TeamId) {
    if team == TeamA then status == Defeat else status == Victory
  }

  /** The counts of the battle, which are team A's first, with the team's own first. */
  predicate CountsOf(own: Stats, battle: Stats, team: TeamId) {
    && own.duration == battle.duration
    && if team == TeamA then
         && own.playerSent == battle.playerSent && own.enemySent == battle.enemySent
         && own.playerCaptures == battle.playerCaptures && own.enemyCaptures == battle.enemyCaptures
       else
         && own.playerSent == battle.enemySent && own.enemySent == battle.playerSent
         && own.playerCaptures == battle.enemyCaptures && own.enemyCaptures == battle.playerCaptures
  }

  /** The slot's player, with its own side's counts: defeated if gone, and otherwise victorious, defeated
      or neither exactly as its own side is. */
  ghost predicate FairOutcome(m: Match, k: nat, p: Participant)
    requires k < |m.slots|
  {
    var s, status := m.slots[k], m.battle.status;
    && p.slot == k && p.user == s.user && p.team == s.team && p.abandoned == Gone(s)
      && CountsOf(p.stats, m.battle.stats, s.team)
    && if Gone(s) then p.status == Defeat
       else
         && (p.status == Victory <==> WonBy(status, s.team)) && (p.status == Defeat <==> LostBy(status, s.team))
         && (p.status == Draw <==> status == Draw)
  }

  ghost predicate FairOutcomes(m: Match, ps: seq<Participant>) {
    |ps| == |m.slots| && forall k :: 0 <= k < |ps| ==> FairOutcome(m, k, ps[k])
  }

  lemma OutcomesAreFair(m: Match)
    ensures FairOutcomes(m, Outcomes(m))
  {
    forall k | 0 <= k < |m.slots| ensures FairOutcome(m, k, OutcomeOf(m, k)) {
    }
  }

  /** No two players of different teams are both victorious. */
  lemma OneTeamWins(m: Match, j: nat, k: nat, p: Participant, q: Participant)
    requires j < |m.slots| && k < |m.slots| && m.slots[j].team != m.slots[k].team
    requires FairOutcome(m, j, p) && FairOutcome(m, k, q)
    ensures !(p.status == Victory && q.status == Victory)
  {
  }
}
