/** The medal shown beside a leaderboard rank (frontend/components/ui/leaderboard-card.tsx). */
module Leaderboard {
  import opened Wrappers

  const GoldMedal: string := "\U{1F947}"
  const SilverMedal: string := "\U{1F948}"
  const BronzeMedal: string := "\U{1F949}"

  /** `getMedal`: ranks 1, 2 and 3 get gold, silver and bronze; every other rank gets null. */
  function GetMedal(rank: int): (m: Option<string>)
    ensures m.Some? <==> 1 <= rank <= 3
    ensures rank == 1 ==> m == Some(GoldMedal)
    ensures rank == 2 ==> m == Some(SilverMedal)
    ensures rank == 3 ==> m == Some(BronzeMedal)
  {
    if rank == 1 then Some(GoldMedal)
    else if rank == 2 then Some(SilverMedal)
    else if rank == 3 then Some(BronzeMedal)
    else None
  }

  /** Distinct podium ranks never share a medal: the mapping is injective where it is defined. */
  lemma MedalsDistinct(r1: int, r2: int)
    requires GetMedal(r1).Some? && GetMedal(r2).Some?
    ensures GetMedal(r1) == GetMedal(r2) ==> r1 == r2
  {
    assert GoldMedal != SilverMedal by { assert GoldMedal[0] != SilverMedal[0]; }
    assert GoldMedal != BronzeMedal by { assert GoldMedal[0] != BronzeMedal[0]; }
    assert SilverMedal != BronzeMedal by { assert SilverMedal[0] != BronzeMedal[0]; }
  }
}
