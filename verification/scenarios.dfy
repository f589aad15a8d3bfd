/** Concrete consequences of the general model for the shipped catalog and
    for small progress records. */
module Scenarios {
  import opened Types
  import opened Text
  import opened Partition
  import opened Catalog
  import opened Progress
  import opened Filters

  /** The red social-engineering sector: 500 labs over 3 phases gives blocks
      of 167, so the last phase holds labs 334..499 and lab 499 is its
      166th. */
  lemma SocialEngineeringBlocks()
    ensures LabsPerPhase(500, 3) == 167
    ensures PhaseIndex(499, 500, 3) == 2 && SubId(499, 500, 3) == 166
    ensures PhaseIndex(333, 500, 3) == 1 && PhaseIndex(334, 500, 3) == 2
  {
    DivUnique(499, 167, 2);
    DivUnique(333, 167, 1);
    DivUnique(334, 167, 2);
  }

  /** The AI sectors: 400 labs over 6 phases gives blocks of 67, and the
      sixth phase is left with 65 labs. */
  lemma AiBlocks()
    ensures LabsPerPhase(400, 6) == 67
    ensures PhaseIndex(334, 400, 6) == 4 && PhaseIndex(335, 400, 6) == 5
    ensures SubId(399, 400, 6) == 65
  {
    DivUnique(334, 67, 4);
    DivUnique(335, 67, 5);
    DivUnique(399, 67, 5);
  }

  /** The catalog's module count and lab total. */
  lemma CatalogTotal()
    ensures TotalLabs(InitialModules()) == 6400
  {
    var ms := InitialModules();
    assert ms[..0] == [];
    assert TotalLabs(ms[..1]) == 1000 by { assert ms[..1][..0] == ms[..0]; }
    assert TotalLabs(ms[..2]) == 1500 by { assert ms[..2][..1] == ms[..1]; }
    assert TotalLabs(ms[..3]) == 1600 by { assert ms[..3][..2] == ms[..2]; }
    assert TotalLabs(ms[..4]) == 1900 by { assert ms[..4][..3] == ms[..3]; }
    assert TotalLabs(ms[..5]) == 2400 by { assert ms[..5][..4] == ms[..4]; }
    assert TotalLabs(ms[..6]) == 2800 by { assert ms[..6][..5] == ms[..5]; }
    assert TotalLabs(ms[..7]) == 3200 by { assert ms[..7][..6] == ms[..6]; }
    assert TotalLabs(ms[..8]) == 4200 by { assert ms[..8][..7] == ms[..7]; }
    assert TotalLabs(ms[..9]) == 4700 by { assert ms[..9][..8] == ms[..8]; }
    assert TotalLabs(ms[..10]) == 4800 by { assert ms[..10][..9] == ms[..9]; }
    assert TotalLabs(ms[..11]) == 5100 by { assert ms[..11][..10] == ms[..10]; }
    assert TotalLabs(ms[..12]) == 5600 by { assert ms[..12][..11] == ms[..11]; }
    assert TotalLabs(ms[..13]) == 6000 by { assert ms[..13][..12] == ms[..12]; }
    assert ms[..14] == ms;
    assert ms[..14][..13] == ms[..13];
  }

  /** A fresh operative: no credits, level 1, rank Initiate, no forum
      privilege. */
  lemma FreshOperative()
    ensures TotalCredits(InitialModules(), map[]) == 0
    ensures ComputeStats(InitialModules(), map[]) == Stats(6400, 0, 1, "Initiate")
    ensures !ForumPrivileged(TotalCredits(InitialModules(), map[]))
  {
    var ms := InitialModules();
    CatalogIdsDistinct();
    CreditsCountKeys(ms, map[]);
    forall k ensures k !in CreditedKeys(ms, map[]) {
      CreditedKeysExactly(ms, map[], k);
    }
    assert CreditedKeys(ms, map[]) == {};
    assert TrueKeys(map[]) == {};
    CatalogTotal();
  }

  /** The three keys of the scenario below are distinct. */
  lemma ThreeKeys(id: string, n: nat)
    requires n >= 2
    ensures |map[Key(id, 0) := true, Key(id, 1) := true, Key(id, n) := true].Keys| == 3
    ensures CompletedCount(map[Key(id, 0) := true, Key(id, 1) := true, Key(id, n) := true]) == 3
  {
    var k0, k1, kg := Key(id, 0), Key(id, 1), Key(id, n);
    KeyInjective(id, 0, id, 1);
    KeyInjective(id, 0, id, n);
    KeyInjective(id, 1, id, n);
    var flags := map[k0 := true, k1 := true, kg := true];
    assert flags.Keys == {k0, k1, kg};
    assert TrueKeys(flags) == {k0, k1, kg};
  }

  /** With distinct ids, the key one past a module's last lab names no lab
      of the catalog. */
  lemma StaleKeyNamesNothing(ms: seq<Module>, a: nat)
    requires DistinctIds(ms) && a < |ms|
    ensures !NamesCatalogLab(ms, Key(ms[a].id, |ms[a].labs|))
  {
    var kg := Key(ms[a].id, |ms[a].labs|);
    forall b, i | 0 <= b < |ms| && 0 <= i < |ms[b].labs| ensures kg != Key(ms[b].id, i) {
      KeyInjective(ms[a].id, |ms[a].labs|, ms[b].id, i);
    }
  }

  /** The credited keys of such a record are the two lab keys. */
  lemma TwoLabsCreditedKeys(ms: seq<Module>, a: nat, flags: Flags)
    requires DistinctIds(ms) && a < |ms| && |ms[a].labs| >= 2
    requires forall x :: IsSet(flags, x) <==>
               x == Key(ms[a].id, 0) || x == Key(ms[a].id, 1) || x == Key(ms[a].id, |ms[a].labs|)
    ensures CreditedKeys(ms, flags) == {Key(ms[a].id, 0), Key(ms[a].id, 1)}
  {
    var k0, k1 := Key(ms[a].id, 0), Key(ms[a].id, 1);
    StaleKeyNamesNothing(ms, a);
    assert NamesCatalogLab(ms, k0) && NamesCatalogLab(ms, k1);
    forall x ensures x in CreditedKeys(ms, flags) <==> x == k0 || x == k1 {
      CreditedKeysExactly(ms, flags, x);
    }
  }

  /** In a catalog with distinct ids, a record that marks exactly the first
      two labs of a module and a stale key one past its last lab earns 20
      credits: the stale key earns nothing. */
  lemma TwoLabsCredits(ms: seq<Module>, a: nat, flags: Flags)
    requires DistinctIds(ms) && a < |ms| && |ms[a].labs| >= 2
    requires forall x :: IsSet(flags, x) <==>
               x == Key(ms[a].id, 0) || x == Key(ms[a].id, 1) || x == Key(ms[a].id, |ms[a].labs|)
    ensures TotalCredits(ms, flags) == 20
  {
    KeyInjective(ms[a].id, 0, ms[a].id, 1);
    CreditsCountKeys(ms, flags);
    TwoLabsCreditedKeys(ms, a, flags);
  }

  lemma TwoLabsAndAStaleKey(ms: seq<Module>, a: nat)
    requires DistinctIds(ms) && a < |ms| && |ms[a].labs| >= 2
    ensures var id, n := ms[a].id, |ms[a].labs|;
            var flags := map[Key(id, 0) := true, Key(id, 1) := true, Key(id, n) := true];
            TotalCredits(ms, flags) == 20 && CompletedCount(flags) == 3
  {
    var id, n := ms[a].id, |ms[a].labs|;
    ThreeKeys(id, n);
    TwoLabsCredits(ms, a, map[Key(id, 0) := true, Key(id, 1) := true, Key(id, n) := true]);
  }

  /** Completing the first two web-pentesting labs earns 20 credits; the key
      `red-web-1000`, past the sector's last lab, earns nothing. */
  lemma TwoWebLabs()
    ensures var flags := map[Key("red-web", 0) := true, Key("red-web", 1) := true, Key("red-web", 1000) := true];
            TotalCredits(InitialModules(), flags) == 20 && CompletedCount(flags) == 3
  {
    CatalogIdsDistinct();
    CatalogSides();
    TwoLabsAndAStaleKey(InitialModules(), 0);
  }

  function Other(t: TeamType): TeamType {
    if t == RedTeam then BlueTeam else RedTeam
  }

  /** A list of one team's modules lists whole under that team and not at
      all under the other. */
  lemma OneTeam(s: seq<Module>, team: TeamType)
    requires forall k :: 0 <= k < |s| ==> s[k].team == team
    ensures TeamModules(s, team) == s
    ensures |TeamModules(s, Other(team))| == 0
  {
    FilterKeepsAll(s, (m: Module) => m.team == team);
    FilterSplit(s, (m: Module) => m.team == team, (m: Module) => m.team == Other(team));
  }

  /** A list of fourteen modules, seven red then seven blue. */
  lemma SevenPerTeamIn(ms: seq<Module>)
    requires |ms| == 14
    requires forall a :: 0 <= a < |ms| ==> (ms[a].team == RedTeam <==> a < 7)
    ensures |TeamModules(ms, RedTeam)| == 7
    ensures |TeamModules(ms, BlueTeam)| == 7
  {
    var red, blue := ms[..7], ms[7..];
    assert red + blue == ms;
    OneTeam(red, RedTeam);
    OneTeam(blue, BlueTeam);
    FilterAppend(red, blue, (m: Module) => m.team == RedTeam);
    FilterAppend(red, blue, (m: Module) => m.team == BlueTeam);
  }

  /** The red and blue views each list seven modules of the catalog. */
  lemma SevenPerTeam()
    ensures |TeamModules(InitialModules(), RedTeam)| == 7
    ensures |TeamModules(InitialModules(), BlueTeam)| == 7
  {
    CatalogSides();
    SevenPerTeamIn(InitialModules());
  }
}
