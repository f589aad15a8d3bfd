/** The progress and scoring model: completion flags keyed by module id and
    lab index, the credits they earn, and the level, rank and forum privilege
    derived from the credits. Each derived value is a pure function of the
    module list and the flag map. */
module Progress {
  import opened Wrappers
  import opened Types
  import opened Text

  /** The completion record: composite key to flag, as persisted. */
  type Flags = map<string, bool>

  /** The composite completion key `${module.id}-${i}`. */
  function Key(moduleId: string, i: nat): string {
    moduleId + "-" + Dec(i)
  }

  /** Reads a key back: the text before its last dash is the module id, the
      decimal digits after it the lab index. */
  function SplitKey(k: string): Option<(string, nat)> {
    match LastIndexOf(k, '-')
    case None => None
    case Some(p) =>
      var digits := k[p + 1..];
      if |digits| > 0 && forall t :: 0 <= t < |digits| ==> IsDigitOf(digits[t], 10) then
        Some((k[..p], FromRadix(digits, 10)))
      else
        None
  }

  /** Every completion key splits back into its module id and lab index. */
  lemma SplitKeyRoundTrip(moduleId: string, i: nat)
    ensures SplitKey(Key(moduleId, i)) == Some((moduleId, i))
  {
    var k := Key(moduleId, i);
    var d := Dec(i);
    DecHasNoDash(i);
    assert k == moduleId + ['-'] + d;
    assert k[|moduleId|] == '-';
    assert k[|moduleId| + 1..] == d;
    assert forall j :: |moduleId| < j < |k| ==> k[j] != '-' by {
      forall j | |moduleId| < j < |k| ensures k[j] != '-' {
        assert k[j] == d[j - |moduleId| - 1];
      }
    }
    assert LastIndexOf(k, '-') == Some(|moduleId|);
    assert k[..|moduleId|] == moduleId;
    FromToRadix(i, 10);
  }

  /** Distinct (module id, lab index) pairs have distinct keys. */
  lemma KeyInjective(a: string, i: nat, b: string, j: nat)
    ensures Key(a, i) == Key(b, j) ==> a == b && i == j
  {
    SplitKeyRoundTrip(a, i);
    SplitKeyRoundTrip(b, j);
  }

  /** `completedLabs[key]` read as a condition: an absent key is `undefined`,
      which is falsy. */
  predicate IsSet(flags: Flags, k: string) {
    k in flags && flags[k]
  }

  /** The completion button's update `{ ...prev, [key]: !prev[key] }`: the
      key is written with the negation of its truthiness, every other entry
      stays as it was. */
  function Toggle(flags: Flags, k: string): (r: Flags)
    ensures k in r && r[k] == !IsSet(flags, k)
    ensures r.Keys == flags.Keys + {k}
    ensures forall k' :: k' in flags && k' != k ==> r[k'] == flags[k']
  {
    flags[k := !IsSet(flags, k)]
  }

  /** The handler bound to the lab view: toggles the active lab of the
      selected module. */
  function ToggleLab(flags: Flags, moduleId: string, labIndex: nat): (r: Flags)
    ensures IsSet(r, Key(moduleId, labIndex)) == !IsSet(flags, Key(moduleId, labIndex))
    ensures forall id, i :: (id != moduleId || i != labIndex) ==> IsSet(r, Key(id, i)) == IsSet(flags, Key(id, i))
  {
    forall id, i | id != moduleId || i != labIndex
      ensures Key(id, i) != Key(moduleId, labIndex)
    {
      KeyInjective(id, i, moduleId, labIndex);
    }
    Toggle(flags, Key(moduleId, labIndex))
  }

  /** Toggling twice restores the truthiness of every key. */
  lemma ToggleTwiceTruth(flags: Flags, k: string)
    ensures forall k' :: IsSet(Toggle(Toggle(flags, k), k), k') == IsSet(flags, k')
  {
  }

  /** Toggling a key that is present twice gives back the very same map. */
  lemma ToggleTwicePresent(flags: Flags, k: string)
    requires k in flags
    ensures Toggle(Toggle(flags, k), k) == flags
  {
  }

  /** Toggling an absent key twice leaves an explicit `false` behind, so the
      result is not the original map. */
  lemma ToggleTwiceAbsent(flags: Flags, k: string)
    requires k !in flags
    ensures Toggle(Toggle(flags, k), k) == flags[k := false]
    ensures Toggle(Toggle(flags, k), k) != flags
  {
    assert k in Toggle(Toggle(flags, k), k);
  }

  /** Number of the first n labs of a module that are marked complete. */
  function CompletedIn(moduleId: string, n: nat, flags: Flags): (c: nat)
    ensures c <= n
  {
    if n == 0 then 0
    else CompletedIn(moduleId, n - 1, flags) + (if IsSet(flags, Key(moduleId, n - 1)) then 1 else 0)
  }

  /** `module.labs.filter((_, i) => completedLabs[`${module.id}-${i}`]).length`. */
  function CompletedInModule(m: Module, flags: Flags): (c: nat)
    ensures c <= |m.labs|
  {
    CompletedIn(m.id, |m.labs|, flags)
  }

  /** The keys of the first n labs of a module that are marked complete. */
  function ModuleKeys(moduleId: string, n: nat, flags: Flags): set<string> {
    set i | 0 <= i < n && IsSet(flags, Key(moduleId, i)) :: Key(moduleId, i)
  }

  /** The per-module count is the number of distinct completed keys. */
  lemma {:induction false} CompletedInCountsKeys(moduleId: string, n: nat, flags: Flags)
    ensures CompletedIn(moduleId, n, flags) == |ModuleKeys(moduleId, n, flags)|
  {
    if n > 0 {
      CompletedInCountsKeys(moduleId, n - 1, flags);
      var prev := ModuleKeys(moduleId, n - 1, flags);
      var k := Key(moduleId, n - 1);
      assert k !in prev by {
        forall i | 0 <= i < n - 1 ensures Key(moduleId, i) != k {
          KeyInjective(moduleId, i, moduleId, n - 1);
        }
      }
      if IsSet(flags, k) {
        assert ModuleKeys(moduleId, n, flags) == prev + {k};
      } else {
        assert ModuleKeys(moduleId, n, flags) == prev;
      }
    }
  }

  /** `stats.total`: the number of labs over all modules. */
  function TotalLabs(ms: seq<Module>): nat {
    if |ms| == 0 then 0 else TotalLabs(ms[..|ms| - 1]) + |ms[|ms| - 1].labs|
  }

  /** `totalCredits`: ten credits for every completed lab of every module,
      summed from the first module on, as the reduce does. */
  function TotalCredits(ms: seq<Module>, flags: Flags): (c: nat)
    ensures c % 10 == 0
    ensures c <= 10 * TotalLabs(ms)
  {
    if |ms| == 0 then 0
    else TotalCredits(ms[..|ms| - 1], flags) + 10 * CompletedInModule(ms[|ms| - 1], flags)
  }

  /** Module ids are pairwise distinct. */
  predicate DistinctIds(ms: seq<Module>) {
    forall a, b :: 0 <= a < b < |ms| ==> ms[a].id != ms[b].id
  }

  /** Key k names a lab of the catalog: some module's id and an index within
      its labs. */
  predicate NamesCatalogLab(ms: seq<Module>, k: string) {
    exists a, i :: 0 <= a < |ms| && 0 <= i < |ms[a].labs| && k == Key(ms[a].id, i)
  }

  /** The completed keys that earn credits, module by module. */
  function CreditedKeys(ms: seq<Module>, flags: Flags): set<string> {
    if |ms| == 0 then {}
    else CreditedKeys(ms[..|ms| - 1], flags) + ModuleKeys(ms[|ms| - 1].id, |ms[|ms| - 1].labs|, flags)
  }

  /** A key earns credit exactly when it is set and names a catalog lab. */
  lemma {:induction false} CreditedKeysExactly(ms: seq<Module>, flags: Flags, k: string)
    ensures k in CreditedKeys(ms, flags) <==> IsSet(flags, k) && NamesCatalogLab(ms, k)
  {
    if |ms| > 0 {
      var init := ms[..|ms| - 1];
      var last := ms[|ms| - 1];
      CreditedKeysExactly(init, flags, k);
      if NamesCatalogLab(init, k) {
        var a, i :| 0 <= a < |init| && 0 <= i < |init[a].labs| && k == Key(init[a].id, i);
        assert ms[a] == init[a];
      }
      if k in ModuleKeys(last.id, |last.labs|, flags) {
        var i :| 0 <= i < |last.labs| && IsSet(flags, Key(last.id, i)) && k == Key(last.id, i);
        assert k == Key(ms[|ms| - 1].id, i);
      }
      if IsSet(flags, k) && NamesCatalogLab(ms, k) {
        var a, i :| 0 <= a < |ms| && 0 <= i < |ms[a].labs| && k == Key(ms[a].id, i);
        if a < |ms| - 1 {
          assert init[a] == ms[a];
        } else {
          assert k in ModuleKeys(last.id, |last.labs|, flags);
        }
      }
    }
  }

  /** With distinct module ids, the credits are ten per credited key. */
  lemma {:induction false} CreditsCountKeys(ms: seq<Module>, flags: Flags)
    requires DistinctIds(ms)
    ensures TotalCredits(ms, flags) == 10 * |CreditedKeys(ms, flags)|
  {
    if |ms| > 0 {
      var init := ms[..|ms| - 1];
      var last := ms[|ms| - 1];
      assert DistinctIds(init) by {
        forall a, b | 0 <= a < b < |init| ensures init[a].id != init[b].id {
          assert init[a] == ms[a] && init[b] == ms[b];
        }
      }
      CreditsCountKeys(init, flags);
      CompletedInCountsKeys(last.id, |last.labs|, flags);
      var mk := ModuleKeys(last.id, |last.labs|, flags);
      var ck := CreditedKeys(init, flags);
      assert ck !! mk by {
        forall k | k in mk ensures k !in ck {
          var j :| 0 <= j < |last.labs| && IsSet(flags, Key(last.id, j)) && k == Key(last.id, j);
          CreditedKeysExactly(init, flags, k);
          forall a, i | 0 <= a < |init| && 0 <= i < |init[a].labs| ensures k != Key(init[a].id, i) {
            KeyInjective(init[a].id, i, last.id, j);
            assert init[a].id == ms[a].id;
          }
        }
      }
    }
  }

  /** The keys marked complete, whatever they name. */
  function TrueKeys(flags: Flags): set<string> {
    set k | k in flags && flags[k]
  }

  /** `stats.completed`: `Object.values(completedLabs).filter(Boolean).length`,
      a raw count of set entries that is not checked against the catalog. */
  function CompletedCount(flags: Flags): (n: nat)
    ensures n <= |flags|
    ensures n == 0 <==> forall k :: k in flags ==> !flags[k]
    ensures n == |flags| <==> forall k :: k in flags ==> flags[k]
  {
    SubsetCard(TrueKeys(flags), flags.Keys);
    assert |flags.Keys| == |flags|;
    assert (forall k :: k in flags ==> !flags[k]) <==> TrueKeys(flags) == {} by {
      if k :| k in flags && flags[k] {
        assert k in TrueKeys(flags);
      }
    }
    assert (forall k :: k in flags ==> flags[k]) ==> TrueKeys(flags) == flags.Keys;
    |TrueKeys(flags)|
  }

  lemma SubsetCard(a: set<string>, b: set<string>)
    requires a <= b
    ensures |a| <= |b|
    ensures |a| == |b| ==> a == b
  {
    assert b == a + (b - a);
    if a != b {
      var x :| x in b - a;
      assert |b - a| >= 1;
    }
  }

  /** With distinct module ids, the credits never exceed ten per completed
      entry, and they match it exactly when every completed key names a lab
      of the catalog. */
  lemma CreditsVersusCompleted(ms: seq<Module>, flags: Flags)
    requires DistinctIds(ms)
    ensures TotalCredits(ms, flags) <= 10 * CompletedCount(flags)
    ensures TotalCredits(ms, flags) == 10 * CompletedCount(flags)
        <==> forall k :: k in flags && flags[k] ==> NamesCatalogLab(ms, k)
  {
    CreditsCountKeys(ms, flags);
    var ck := CreditedKeys(ms, flags);
    var tk := TrueKeys(flags);
    forall k | k in ck ensures k in tk {
      CreditedKeysExactly(ms, flags, k);
    }
    SubsetCard(ck, tk);
    if forall k :: k in flags && flags[k] ==> NamesCatalogLab(ms, k) {
      forall k | k in tk ensures k in ck {
        CreditedKeysExactly(ms, flags, k);
      }
      assert ck == tk;
    }
    if ck == tk {
      forall k | k in flags && flags[k] ensures NamesCatalogLab(ms, k) {
        assert k in tk;
        CreditedKeysExactly(ms, flags, k);
      }
    }
  }

  /** Credits depend only on the flags of catalog keys: keys of absent modules
      or out-of-range indices contribute nothing. */
  lemma {:induction false} CreditsIgnoreOtherKeys(ms: seq<Module>, f: Flags, g: Flags)
    requires forall a, i :: 0 <= a < |ms| && 0 <= i < |ms[a].labs| ==> IsSet(f, Key(ms[a].id, i)) == IsSet(g, Key(ms[a].id, i))
    ensures TotalCredits(ms, f) == TotalCredits(ms, g)
  {
    if |ms| > 0 {
      var init := ms[..|ms| - 1];
      var last := ms[|ms| - 1];
      forall a, i | 0 <= a < |init| && 0 <= i < |init[a].labs|
        ensures IsSet(f, Key(init[a].id, i)) == IsSet(g, Key(init[a].id, i))
      {
        assert init[a] == ms[a];
      }
      CreditsIgnoreOtherKeys(init, f, g);
      CountAgrees(last.id, |last.labs|, f, g);
    }
  }

  lemma {:induction false} CountAgrees(moduleId: string, n: nat, f: Flags, g: Flags)
    requires forall i :: 0 <= i < n ==> IsSet(f, Key(moduleId, i)) == IsSet(g, Key(moduleId, i))
    ensures CompletedIn(moduleId, n, f) == CompletedIn(moduleId, n, g)
  {
    if n > 0 {
      CountAgrees(moduleId, n - 1, f, g);
    }
  }

  /** Toggling a key outside the catalog leaves the credits unchanged. */
  lemma ToggleOutsideCatalog(ms: seq<Module>, flags: Flags, k: string)
    requires !NamesCatalogLab(ms, k)
    ensures TotalCredits(ms, Toggle(flags, k)) == TotalCredits(ms, flags)
  {
    forall a, i | 0 <= a < |ms| && 0 <= i < |ms[a].labs|
      ensures IsSet(Toggle(flags, k), Key(ms[a].id, i)) == IsSet(flags, Key(ms[a].id, i))
    {
      assert Key(ms[a].id, i) != k;
    }
    CreditsIgnoreOtherKeys(ms, Toggle(flags, k), flags);
  }

  /** Toggling a catalog key adds it to the credited keys or removes it. */
  lemma ToggleCreditedKeys(ms: seq<Module>, flags: Flags, k: string)
    requires NamesCatalogLab(ms, k)
    ensures CreditedKeys(ms, Toggle(flags, k))
         == if IsSet(flags, k) then CreditedKeys(ms, flags) - {k} else CreditedKeys(ms, flags) + {k}
  {
    var g := Toggle(flags, k);
    var before := CreditedKeys(ms, flags);
    var after := CreditedKeys(ms, g);
    var want := if IsSet(flags, k) then before - {k} else before + {k};
    forall x ensures x in after <==> x in want {
      CreditedKeysExactly(ms, flags, x);
      CreditedKeysExactly(ms, g, x);
    }
  }

  /** With distinct module ids, toggling a key that names a catalog lab moves
      the credits by exactly ten. */
  lemma ToggleCatalogKey(ms: seq<Module>, flags: Flags, k: string)
    requires DistinctIds(ms) && NamesCatalogLab(ms, k)
    ensures TotalCredits(ms, Toggle(flags, k))
         == TotalCredits(ms, flags) + (if IsSet(flags, k) then -10 else 10)
  {
    CreditsCountKeys(ms, flags);
    CreditsCountKeys(ms, Toggle(flags, k));
    ToggleCreditedKeys(ms, flags, k);
    CreditedKeysExactly(ms, flags, k);
  }

  /** With distinct module ids, toggling a lab of the catalog moves the
      credits by exactly ten: up when it was not complete, down when it was. */
  lemma ToggleMovesCreditsByTen(ms: seq<Module>, flags: Flags, a: nat, i: nat)
    requires DistinctIds(ms)
    requires a < |ms| && i < |ms[a].labs|
    ensures TotalCredits(ms, ToggleLab(flags, ms[a].id, i))
         == TotalCredits(ms, flags) + (if IsSet(flags, Key(ms[a].id, i)) then -10 else 10)
  {
    var k := Key(ms[a].id, i);
    assert ToggleLab(flags, ms[a].id, i) == Toggle(flags, k);
    assert NamesCatalogLab(ms, k);
    ToggleCatalogKey(ms, flags, k);
  }

  /** `Math.floor(totalCredits / 1000) + 1`. */
  function Level(credits: int): int {
    credits / 1000 + 1
  }

  /** Level n covers exactly the credits from 1000*(n-1) up to 1000*n - 1. */
  lemma LevelBand(credits: int)
    ensures 1000 * (Level(credits) - 1) <= credits < 1000 * Level(credits)
  {
  }

  lemma LevelMonotone(c1: int, c2: int)
    requires c1 <= c2
    ensures Level(c1) <= Level(c2)
  {
  }

  lemma LevelAtLeastOne(credits: int)
    requires credits >= 0
    ensures Level(credits) >= 1
  {
  }

  /** The rank label: strict comparisons, most senior first. */
  function Rank(level: int): string {
    if level > 20 then "Ghost Operative"
    else if level > 15 then "Master"
    else if level > 10 then "Elite"
    else if level > 5 then "Specialist"
    else "Initiate"
  }

  /** Seniority of a rank label, from Initiate (0) to Ghost Operative (4). */
  function Seniority(rank: string): nat {
    if rank == "Ghost Operative" then 4
    else if rank == "Master" then 3
    else if rank == "Elite" then 2
    else if rank == "Specialist" then 1
    else 0
  }

  /** A higher level never carries a lower rank. */
  lemma RankMonotone(l1: int, l2: int)
    requires l1 <= l2
    ensures Seniority(Rank(l1)) <= Seniority(Rank(l2))
  {
  }

  /** The breakpoints are strict: 21 is the first Ghost Operative level, 20 is
      still Master, and so on down. */
  lemma RankBreakpoints()
    ensures Rank(21) == "Ghost Operative" && Rank(20) == "Master"
    ensures Rank(16) == "Master" && Rank(15) == "Elite"
    ensures Rank(11) == "Elite" && Rank(10) == "Specialist"
    ensures Rank(6) == "Specialist" && Rank(5) == "Initiate"
  {
  }

  /** The forum's `isPrivileged`: at least 1000 credits. */
  predicate ForumPrivileged(credits: int) {
    credits >= 1000
  }

  /** Forum privilege is exactly reaching level 2. */
  lemma PrivilegeIsLevelTwo(credits: int)
    ensures ForumPrivileged(credits) <==> Level(credits) >= 2
  {
  }

  /** The profile figures. */
  datatype Stats = Stats(total: nat, completed: nat, level: int, rank: string)

  /** `stats`, recomputed from the module list and the flags. */
  function ComputeStats(ms: seq<Module>, flags: Flags): (s: Stats)
    ensures s.level >= 1
    ensures 1000 * (s.level - 1) <= TotalCredits(ms, flags) < 1000 * s.level
    ensures s.rank == Rank(s.level)
    ensures s.total == TotalLabs(ms) && s.completed == CompletedCount(flags)
  {
    var credits := TotalCredits(ms, flags);
    LevelBand(credits);
    Stats(TotalLabs(ms), CompletedCount(flags), Level(credits), Rank(Level(credits)))
  }
}
