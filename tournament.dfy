/** Team partitioning and matchup pairing (src/tournament.py).

    `random.shuffle` is CPython's Fisher-Yates shuffle: for each position i
    from the last down to 1 it draws j with 0 <= j <= i and swaps x[i] with
    x[j]. The draws are supplied by the caller, so the shuffle is a
    deterministic in-place array algorithm; drawing j == i everywhere is the
    identity shuffle that the tests patch in. */
module Tournament {
  import opened Wrappers
  import opened Strings

  type Player = string
  type Team = seq<Player>

  /** The two ways `teamCreator` raises `InvalidTournamentException`. */
  datatype TournamentError = TooFewPlayers | UnsupportedSize
  {
    function Message(): string
    {
      match this
      case TooFewPlayers => "Need at least 8 players for a tournament"
      case UnsupportedSize => "Tournament size not supported"
    }
  }

  // ---------------------------------------------------------------------------
  // The shuffle

  /** `draws[i]` is the index drawn for position i, and it never exceeds i. */
  predicate ValidDraws(draws: seq<nat>, n: nat)
  {
    |draws| == n && forall i :: 0 <= i < n ==> draws[i] <= i
  }

  /** The draws of the identity shuffle: every position is swapped with itself. */
  predicate IdentityDraws(draws: seq<nat>, n: nat)
  {
    |draws| == n && forall k :: 0 <= k < n ==> draws[k] == k
  }

  function Swap<T>(s: seq<T>, i: nat, j: nat): (r: seq<T>)
    requires i < |s| && j < |s|
    ensures |r| == |s|
  {
    s[i := s[j]][j := s[i]]
  }

  /** The shuffle's swaps still to do when positions `i` and above are done. */
  function ShuffledFrom<T>(s: seq<T>, draws: seq<nat>, i: nat): (r: seq<T>)
    requires i <= |s| && ValidDraws(draws, |s|)
    ensures |r| == |s|
    decreases i
  {
    if i <= 1 then s else ShuffledFrom(Swap(s, i - 1, draws[i - 1]), draws, i - 1)
  }

  /** `random.shuffle(s)` with the given draws. */
  function Shuffled<T>(s: seq<T>, draws: seq<nat>): seq<T>
    requires ValidDraws(draws, |s|)
  {
    ShuffledFrom(s, draws, |s|)
  }

  lemma SwapPreservesMultiset<T>(s: seq<T>, i: nat, j: nat)
    requires i < |s| && j < |s|
    ensures multiset(Swap(s, i, j)) == multiset(s)
  {
  }

  lemma {:induction false} ShuffledFromPreservesMultiset<T>(s: seq<T>, draws: seq<nat>, i: nat)
    requires i <= |s| && ValidDraws(draws, |s|)
    ensures multiset(ShuffledFrom(s, draws, i)) == multiset(s)
    decreases i
  {
    if i > 1 {
      var t := Swap(s, i - 1, draws[i - 1]);
      SwapPreservesMultiset(s, i - 1, draws[i - 1]);
      ShuffledFromPreservesMultiset(t, draws, i - 1);
    }
  }

  /** The shuffle is a permutation: every player keeps its number of occurrences. */
  lemma ShuffledIsPermutation<T>(s: seq<T>, draws: seq<nat>)
    requires ValidDraws(draws, |s|)
    ensures |Shuffled(s, draws)| == |s|
    ensures multiset(Shuffled(s, draws)) == multiset(s)
  {
    ShuffledFromPreservesMultiset(s, draws, |s|);
  }

  lemma {:induction false} ShuffledFromIdentity<T>(s: seq<T>, draws: seq<nat>, i: nat)
    requires i <= |s| && IdentityDraws(draws, |s|)
    ensures ShuffledFrom(s, draws, i) == s
    decreases i
  {
    if i > 1 {
      assert Swap(s, i - 1, draws[i - 1]) == s;
      ShuffledFromIdentity(s, draws, i - 1);
    }
  }

  /** Drawing every position itself leaves the list as it was: the identity
      shuffle the tests patch in. */
  lemma IdentityShuffle<T>(s: seq<T>, draws: seq<nat>)
    requires IdentityDraws(draws, |s|)
    ensures Shuffled(s, draws) == s
  {
    ShuffledFromIdentity(s, draws, |s|);
  }

  /** `random.shuffle(a)`, in place. */
  method Shuffle<T>(a: array<T>, draws: seq<nat>)
    requires ValidDraws(draws, a.Length)
    modifies a
    ensures a[..] == Shuffled(old(a[..]), draws)
  {
    var i := a.Length;
    while i > 1
      invariant 0 <= i <= a.Length
      invariant ShuffledFrom(a[..], draws, i) == Shuffled(old(a[..]), draws)
    {
      ghost var before := a[..];
      i := i - 1;
      var j := draws[i];
      var tmp := a[i];
      a[i] := a[j];
      a[j] := tmp;
      assert a[..] == Swap(before, i, j);
    }
  }

  // ---------------------------------------------------------------------------
  // Grouping

  /** `[s[i : i + 2] for i in range(lo, lo + 2 * count, 2)]` */
  function Pairs(s: seq<Player>, lo: nat, count: nat): (teams: seq<Team>)
    requires lo + 2 * count <= |s|
    ensures |teams| == count
  {
    seq(count, k requires 0 <= k < count => s[lo + 2 * k .. lo + 2 * k + 2])
  }

  /** `[s[i : i + 3] for i in range(lo, lo + 3 * count, 3)]` */
  function Triples(s: seq<Player>, lo: nat, count: nat): (teams: seq<Team>)
    requires lo + 3 * count <= |s|
    ensures |teams| == count
  {
    seq(count, k requires 0 <= k < count => s[lo + 3 * k .. lo + 3 * k + 3])
  }

  /** The team lists of `teamCreator`, applied to the list after its shuffle. */
  function Partition(s: seq<Player>): Result<seq<Team>, TournamentError>
  {
    if |s| < 8 then Err(TooFewPlayers)
    else if |s| == 8 then Ok(Pairs(s, 0, 4))
    else if |s| == 10 then Ok(Triples(s, 0, 2) + Pairs(s, 6, 2))
    else if |s| == 12 then Ok(Triples(s, 0, 4))
    else Err(UnsupportedSize)
  }

  /** All teams' players in team order. */
  function Flatten(teams: seq<Team>): seq<Player>
  {
    if teams == [] then [] else teams[0] + Flatten(teams[1..])
  }

  lemma FlattenFour(teams: seq<Team>)
    requires |teams| == 4
    ensures Flatten(teams) == teams[0] + teams[1] + teams[2] + teams[3]
  {
    var t1, t2, t3 := teams[1..], teams[2..], teams[3..];
    assert t1[1..] == t2 && t2[1..] == t3 && t3[1..] == [];
    assert Flatten(t3) == teams[3];
    assert Flatten(t2) == teams[2] + teams[3];
    assert Flatten(t1) == teams[1] + teams[2] + teams[3];
  }

  /** `teamCreator` accepts exactly the sizes 8, 10 and 12, and fails with the
      "too few" error below 8 and the "not supported" error otherwise. */
  lemma PartitionOutcome(s: seq<Player>)
    ensures Partition(s).Ok? <==> |s| == 8 || |s| == 10 || |s| == 12
    ensures Partition(s) == Err(TooFewPlayers) <==> |s| < 8
    ensures Partition(s) == Err(UnsupportedSize) <==>
              |s| >= 8 && |s| != 8 && |s| != 10 && |s| != 12
  {
  }

  /** The shape of a successful partition: always four teams, of sizes
      2,2,2,2 for 8 players, 3,3,2,2 for 10 and 3,3,3,3 for 12, and the
      teams laid end to end give back the list. */
  lemma PartitionShape(s: seq<Player>)
    requires Partition(s).Ok?
    ensures var teams := Partition(s).value;
      && |teams| == 4
      && Flatten(teams) == s
      && (|s| == 8 ==> forall k :: 0 <= k < 4 ==> |teams[k]| == 2)
      && (|s| == 10 ==> |teams[0]| == 3 && |teams[1]| == 3 && |teams[2]| == 2 && |teams[3]| == 2)
      && (|s| == 12 ==> forall k :: 0 <= k < 4 ==> |teams[k]| == 3)
  {
    var teams := Partition(s).value;
    FlattenFour(teams);
    if |s| == 8 {
      SplitFour(s, 2, 4, 6);
    } else if |s| == 10 {
      assert teams[2] == s[6..8] && teams[3] == s[8..10];
      SplitFour(s, 3, 6, 8);
    } else {
      SplitFour(s, 3, 6, 9);
    }
  }

  lemma SplitFour(s: seq<Player>, a: nat, b: nat, c: nat)
    requires a <= b <= c <= |s|
    ensures s == s[0..a] + s[a..b] + s[b..c] + s[c..|s|]
  {
    assert s[0..b] == s[0..a] + s[a..b];
    assert s[0..c] == s[0..b] + s[b..c];
    assert s == s[0..c] + s[c..|s|];
  }

  /** Team k of 8 players is the k-th consecutive pair, of 12 the k-th
      consecutive triple; for 10 the first two teams are triples from
      positions 0-5 and the last two pairs from positions 6-9. */
  lemma PartitionTeamAt(s: seq<Player>, k: nat)
    requires Partition(s).Ok? && k < 4
    ensures |s| == 8 ==> Partition(s).value[k] == s[2 * k .. 2 * k + 2]
    ensures |s| == 10 && k < 2 ==> Partition(s).value[k] == s[3 * k .. 3 * k + 3]
    ensures |s| == 10 && k >= 2 ==> Partition(s).value[k] == s[6 + 2 * (k - 2) .. 8 + 2 * (k - 2)]
    ensures |s| == 12 ==> Partition(s).value[k] == s[3 * k .. 3 * k + 3]
  {
  }

  /** What `teamCreator` returns for a list and the shuffle's draws; the list
      is shuffled only once it has at least 8 players. */
  function ShuffledRoster(s: seq<Player>, draws: seq<nat>): seq<Player>
    requires ValidDraws(draws, |s|)
  {
    if |s| < 8 then s else Shuffled(s, draws)
  }

  /** No player is dropped or duplicated: on success the teams hold every
      player of the input exactly as often as the input does, and an input
      that fails keeps its players too, in shuffled order. */
  lemma TeamCreatorKeepsEveryPlayer(s: seq<Player>, draws: seq<nat>)
    requires ValidDraws(draws, |s|)
    ensures multiset(ShuffledRoster(s, draws)) == multiset(s)
    ensures |ShuffledRoster(s, draws)| == |s|
    ensures Partition(ShuffledRoster(s, draws)).Ok? ==>
              multiset(Flatten(Partition(ShuffledRoster(s, draws)).value)) == multiset(s)
  {
    ShuffledIsPermutation(s, draws);
    if Partition(ShuffledRoster(s, draws)).Ok? {
      PartitionShape(ShuffledRoster(s, draws));
    }
  }

  /** `teamCreator(players)`: shuffles the caller's list in place (unless
      it has fewer than 8 players) and groups it into teams. */
  method TeamCreator(players: array<Player>, draws: seq<nat>) returns (r: Result<seq<Team>, TournamentError>)
    requires ValidDraws(draws, players.Length)
    modifies players
    ensures players[..] == ShuffledRoster(old(players[..]), draws)
    ensures r == Partition(players[..])
  {
    if players.Length < 8 {
      return Err(TooFewPlayers);
    }
    Shuffle(players, draws);
    var n := players.Length;
    if n == 8 {
      return Ok(Pairs(players[..], 0, 4));
    }
    if n == 10 {
      var threes := Triples(players[..], 0, 2);
      var twos := Pairs(players[..], 6, 2);
      return Ok(threes + twos);
    }
    if n == 12 {
      return Ok(Triples(players[..], 0, 4));
    }
    return Err(UnsupportedSize);
  }

  // ---------------------------------------------------------------------------
  // Matchups

  /** Line k of the matchup text: team 2k's names, " vs ", team 2k+1's names. */
  function MatchupLines(teams: seq<Team>): (lines: seq<string>)
    requires |teams| % 2 == 0
    ensures |lines| == |teams| / 2
  {
    if teams == [] then []
    else [JoinWith(teams[0], " ") + " vs " + JoinWith(teams[1], " ")] + MatchupLines(teams[2..])
  }

  /** The text `tournamentGenerator` returns for an already shuffled team list. */
  function Matchups(teams: seq<Team>): string
    requires |teams| % 2 == 0
  {
    JoinWith(MatchupLines(teams), "\n")
  }

  /** Line k pairs team 2k against team 2k+1, as the source's index-based
      comprehension does. */
  lemma {:induction false} MatchupLineAt(teams: seq<Team>, k: nat)
    requires |teams| % 2 == 0 && k < |teams| / 2
    ensures MatchupLines(teams)[k] ==
              JoinWith(teams[2 * k], " ") + " vs " + JoinWith(teams[2 * k + 1], " ")
  {
    if k > 0 {
      MatchupLineAt(teams[2..], k - 1);
    }
  }

  predicate NoNewline(teams: seq<Team>)
  {
    forall t <- teams, p <- t :: '\n' !in p
  }

  lemma {:induction false} JoinWithKeepsOut(parts: seq<string>, sep: string, c: char)
    requires c !in sep
    requires forall p <- parts :: c !in p
    ensures c !in JoinWith(parts, sep)
  {
    if |parts| > 1 {
      JoinWithKeepsOut(parts[1..], sep, c);
    }
  }

  /** When no name holds a newline, the matchup text has exactly one line
      per pair of teams, and line k reads "team 2k vs team 2k+1". */
  lemma MatchupsLines(teams: seq<Team>)
    requires |teams| % 2 == 0 && |teams| >= 2
    requires NoNewline(teams)
    ensures |SplitOn(Matchups(teams), '\n')| == |teams| / 2
    ensures forall k :: 0 <= k < |teams| / 2 ==>
              SplitOn(Matchups(teams), '\n')[k] ==
                JoinWith(teams[2 * k], " ") + " vs " + JoinWith(teams[2 * k + 1], " ")
  {
    var lines := MatchupLines(teams);
    forall k | 0 <= k < |lines|
      ensures '\n' !in lines[k]
      ensures lines[k] == JoinWith(teams[2 * k], " ") + " vs " + JoinWith(teams[2 * k + 1], " ")
    {
      MatchupLineAt(teams, k);
      JoinWithKeepsOut(teams[2 * k], " ", '\n');
      JoinWithKeepsOut(teams[2 * k + 1], " ", '\n');
    }
    SplitOnJoinWith(lines, '\n');
  }

  /** `tournamentGenerator(teams)`: shuffles the caller's team list in place,
      then pairs neighbours. An odd number of teams makes the source read
      past the end of the list, so an even count is required. */
  method TournamentGenerator(teams: array<Team>, draws: seq<nat>) returns (text: string)
    requires ValidDraws(draws, teams.Length)
    requires teams.Length % 2 == 0
    modifies teams
    ensures teams[..] == Shuffled(old(teams[..]), draws)
    ensures text == Matchups(teams[..])
  {
    Shuffle(teams, draws);
    ghost var ts := teams[..];
    var lines: seq<string> := [];
    var i := 0;
    while i < teams.Length
      invariant 0 <= i <= teams.Length && i % 2 == 0
      invariant teams[..] == ts
      invariant lines + MatchupLines(ts[i..]) == MatchupLines(ts)
    {
      assert ts[i..][2..] == ts[i + 2..];
      assert ts[i..][0] == teams[i] && ts[i..][1] == teams[i + 1];
      lines := lines + [JoinWith(teams[i], " ") + " vs " + JoinWith(teams[i + 1], " ")];
      i := i + 2;
    }
    assert ts[i..] == [];
    assert lines + [] == lines;
    text := JoinWith(lines, "\n");
  }
}
