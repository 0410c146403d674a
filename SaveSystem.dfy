/**
 * The meta-progression save record: permanent upgrade levels live in a
 * dictionary in memory and are serialised as a list of (type, level)
 * entries; the two are converted into each other around serialisation.
 * The record is filled from the prefs store, keeping only the upgrades
 * bought at least once. Nullable references are modelled with Option.
 */
module SaveSystem {
  import opened Numeric
  import opened PlayerPrefs
  import opened PermanentUpgradeButton

  datatype UpgradeDataEntry = UpgradeDataEntry(upgradeType: string, level: int)

  /** The keys named by a list of entries. */
  function EntryKeys(entries: seq<UpgradeDataEntry>): set<string>
  {
    set i | 0 <= i < |entries| :: entries[i].upgradeType
  }

  /** Appending an entry adds its key. */
  lemma EntryKeysSnoc(entries: seq<UpgradeDataEntry>, e: UpgradeDataEntry)
    ensures EntryKeys(entries + [e]) == EntryKeys(entries) + {e.upgradeType}
  {
    var next := entries + [e];
    forall k | k in EntryKeys(next) ensures k in EntryKeys(entries) + {e.upgradeType} {
      var i :| 0 <= i < |next| && next[i].upgradeType == k;
      if i < |entries| {
        assert next[i] == entries[i];
      }
    }
    forall k | k in EntryKeys(entries) ensures k in EntryKeys(next) {
      var i :| 0 <= i < |entries| && entries[i].upgradeType == k;
      assert next[i] == entries[i];
    }
    assert next[|entries|] == e;
  }

  /** The dictionary a list of entries describes, writing the entries in order so that a later duplicate wins. */
  function EntriesToMap(entries: seq<UpgradeDataEntry>): (m: map<string, int>)
    ensures m.Keys == EntryKeys(entries)
    ensures |entries| > 0 ==> m[entries[|entries| - 1].upgradeType] == entries[|entries| - 1].level
  {
    if |entries| == 0 then map[]
    else
      var prefix := entries[..|entries| - 1];
      var last := entries[|entries| - 1];
      assert prefix + [last] == entries;
      EntryKeysSnoc(prefix, last);
      EntriesToMap(prefix)[last.upgradeType := last.level]
  }

  /** For any key, the entry that decides its level is the last one carrying it. */
  lemma {:induction false} LaterEntryWins(entries: seq<UpgradeDataEntry>, i: int)
    requires 0 <= i < |entries|
    requires forall j :: i < j < |entries| ==> entries[j].upgradeType != entries[i].upgradeType
    ensures entries[i].upgradeType in EntriesToMap(entries)
    ensures EntriesToMap(entries)[entries[i].upgradeType] == entries[i].level
  {
    if i < |entries| - 1 {
      var prefix := entries[..|entries| - 1];
      assert prefix[i] == entries[i];
      LaterEntryWins(prefix, i);
    }
  }

  /** The entries list exactly one entry per dictionary key, with that key's level. */
  ghost predicate IsEntryListOf(entries: seq<UpgradeDataEntry>, m: map<string, int>)
  {
    (forall i, j :: 0 <= i < j < |entries| ==> entries[i].upgradeType != entries[j].upgradeType) &&
    (forall i :: 0 <= i < |entries| ==> entries[i].upgradeType in m && m[entries[i].upgradeType] == entries[i].level) &&
    m.Keys == EntryKeys(entries)
  }

  /** Dropping the last entry of an entry list gives an entry list of the dictionary without that key. */
  lemma EntryListPrefix(entries: seq<UpgradeDataEntry>, m: map<string, int>)
    requires IsEntryListOf(entries, m) && |entries| > 0
    ensures IsEntryListOf(entries[..|entries| - 1], m - {entries[|entries| - 1].upgradeType})
  {
    var prefix := entries[..|entries| - 1];
    var last := entries[|entries| - 1];
    var rest := m - {last.upgradeType};
    assert prefix + [last] == entries;
    EntryKeysSnoc(prefix, last);
    forall i | 0 <= i < |prefix| ensures prefix[i].upgradeType != last.upgradeType {
      assert entries[i] == prefix[i];
    }
    assert last.upgradeType !in EntryKeys(prefix);
    assert rest.Keys == EntryKeys(prefix);
    forall i | 0 <= i < |prefix| ensures prefix[i].upgradeType in rest && rest[prefix[i].upgradeType] == prefix[i].level {
      assert entries[i] == prefix[i];
    }
  }

  /** Serialising a dictionary and deserialising the entries gives the dictionary back. */
  lemma {:induction false} SerialiseRoundTrip(entries: seq<UpgradeDataEntry>, m: map<string, int>)
    requires IsEntryListOf(entries, m)
    ensures EntriesToMap(entries) == m
  {
    if |entries| > 0 {
      var last := entries[|entries| - 1];
      EntryListPrefix(entries, m);
      SerialiseRoundTrip(entries[..|entries| - 1], m - {last.upgradeType});
      assert EntriesToMap(entries) == (m - {last.upgradeType})[last.upgradeType := last.level];
    }
  }

  /** The foreach that rebuilds the dictionary from the entries (getter and OnAfterDeserialize). */
  method BuildLevelsFromEntries(entries: seq<UpgradeDataEntry>) returns (m: map<string, int>)
    ensures m == EntriesToMap(entries)
  {
    m := map[];
    var i := 0;
    while i < |entries|
      invariant 0 <= i <= |entries|
      invariant m == EntriesToMap(entries[..i])
    {
      assert entries[..i + 1][..i] == entries[..i];
      m := m[entries[i].upgradeType := entries[i].level];
      i := i + 1;
    }
    assert entries[..|entries|] == entries;
  }

  /** The entries listed so far: one per key of m outside remaining, each with that key's level. */
  ghost predicate ListedExcept(entries: seq<UpgradeDataEntry>, m: map<string, int>, remaining: set<string>)
  {
    remaining <= m.Keys &&
    (forall i, j :: 0 <= i < j < |entries| ==> entries[i].upgradeType != entries[j].upgradeType) &&
    (forall i :: 0 <= i < |entries| ==> entries[i].upgradeType in m && m[entries[i].upgradeType] == entries[i].level) &&
    EntryKeys(entries) == m.Keys - remaining
  }

  /** Listing one more remaining key keeps the entries a partial listing. */
  lemma ListOneMore(entries: seq<UpgradeDataEntry>, m: map<string, int>, remaining: set<string>, k: string)
    requires ListedExcept(entries, m, remaining) && k in remaining
    ensures ListedExcept(entries + [UpgradeDataEntry(k, m[k])], m, remaining - {k})
  {
    var next := entries + [UpgradeDataEntry(k, m[k])];
    EntryKeysSnoc(entries, UpgradeDataEntry(k, m[k]));
    forall i | 0 <= i < |entries| ensures next[i] == entries[i] && entries[i].upgradeType != k {
      assert entries[i].upgradeType in EntryKeys(entries);
    }
  }

  /** An entry list of the empty dictionary is empty. */
  lemma NoKeysNoEntries(entries: seq<UpgradeDataEntry>)
    ensures EntryKeys(entries) == {} ==> entries == []
  {
    if entries != [] {
      assert entries[0].upgradeType in EntryKeys(entries);
    }
  }

  /** The foreach that lists one entry per dictionary pair (setter and OnBeforeSerialize), in the dictionary's own order. */
  method EntriesFromLevels(m: map<string, int>) returns (entries: seq<UpgradeDataEntry>)
    ensures IsEntryListOf(entries, m)
    ensures m == map[] ==> entries == []
  {
    entries := [];
    var remaining := m.Keys;
    while remaining != {}
      invariant ListedExcept(entries, m, remaining)
      decreases |remaining|
    {
      var k :| k in remaining;
      ListOneMore(entries, m, remaining, k);
      entries := entries + [UpgradeDataEntry(k, m[k])];
      remaining := remaining - {k};
    }
    if m == map[] {
      NoKeysNoEntries(entries);
    }
  }

  class MetaProgressionData {
    /** The serialised form; None stands for a null list. */
    var upgradeEntries: Option<seq<UpgradeDataEntry>>
    var unlockedTanks: seq<string>
    var totalGamesPlayed: int
    var bestSurvivalTime: real
    /** The in-memory dictionary; None stands for a null reference (not serialised). */
    var levelsCache: Option<map<string, int>>

    /** Dictionary and entries describe the same levels. */
    ghost predicate Synced()
      reads this
    {
      levelsCache.Some? && upgradeEntries.Some? && IsEntryListOf(upgradeEntries.value, levelsCache.value)
    }

    /** Empty entries, empty tank list, empty dictionary. */
    constructor ()
      ensures upgradeEntries == Some([]) && unlockedTanks == [] && levelsCache == Some(map[])
      ensures totalGamesPlayed == 0 && bestSurvivalTime == 0.0
      ensures Synced()
    {
      upgradeEntries := Some([]);
      unlockedTanks := [];
      levelsCache := Some(map[]);
      totalGamesPlayed := 0;
      bestSurvivalTime := 0.0;
    }

    /**
     * The permanentUpgradeLevels getter: returns the cached dictionary, and
     * only when there is none builds it from the entries (none when the list
     * is null) and caches it.
     */
    method GetPermanentUpgradeLevels() returns (m: map<string, int>)
      modifies this`levelsCache
      ensures old(levelsCache).Some? ==> m == old(levelsCache).value && levelsCache == old(levelsCache)
      ensures old(levelsCache).None? && upgradeEntries.Some? ==> m == EntriesToMap(upgradeEntries.value)
      ensures old(levelsCache).None? && upgradeEntries.None? ==> m == map[]
      ensures levelsCache == Some(m)
    {
      if levelsCache.None? {
        var built := map[];
        if upgradeEntries.Some? {
          built := BuildLevelsFromEntries(upgradeEntries.value);
        }
        levelsCache := Some(built);
      }
      m := levelsCache.value;
    }

    /** The permanentUpgradeLevels setter: replaces the dictionary and lists its pairs as the new entries (none for null). */
    method SetPermanentUpgradeLevels(value: Option<map<string, int>>)
      modifies this`levelsCache, this`upgradeEntries
      ensures levelsCache == value && upgradeEntries.Some?
      ensures value.Some? ==> Synced()
      ensures value.None? || value == Some(map[]) ==> upgradeEntries == Some([])
    {
      levelsCache := value;
      var entries := [];
      if value.Some? {
        entries := EntriesFromLevels(value.value);
      }
      upgradeEntries := Some(entries);
    }

    /** Writes one level into the dictionary the getter returns. */
    method SetLevelThroughGetter(key: string, level: int)
      modifies this`levelsCache
      ensures old(levelsCache).Some? ==> levelsCache == Some(old(levelsCache).value[key := level])
      ensures old(levelsCache).None? && upgradeEntries.Some? ==> levelsCache == Some(EntriesToMap(upgradeEntries.value)[key := level])
      ensures old(levelsCache).None? && upgradeEntries.None? ==> levelsCache == Some(map[key := level])
    {
      var m := GetPermanentUpgradeLevels();
      levelsCache := Some(m[key := level]);
    }

    /** Before serialising, a present dictionary is listed as the entries; a null one leaves the entries alone. */
    method OnBeforeSerialize()
      modifies this`upgradeEntries
      ensures levelsCache.Some? ==> Synced()
      ensures levelsCache.None? ==> upgradeEntries == old(upgradeEntries)
    {
      if levelsCache.Some? {
        var entries := EntriesFromLevels(levelsCache.value);
        upgradeEntries := Some(entries);
      }
    }

    /**
     * After deserialising, the dictionary is rebuilt from the entries (empty
     * for a null list). When dictionary and entries were in step, the
     * dictionary comes back unchanged.
     */
    method OnAfterDeserialize()
      modifies this`levelsCache
      ensures upgradeEntries.Some? ==> levelsCache == Some(EntriesToMap(upgradeEntries.value))
      ensures upgradeEntries.None? ==> levelsCache == Some(map[])
      ensures old(Synced()) ==> levelsCache == old(levelsCache) && Synced()
    {
      var built := map[];
      if upgradeEntries.Some? {
        built := BuildLevelsFromEntries(upgradeEntries.value);
        if old(Synced()) {
          SerialiseRoundTrip(upgradeEntries.value, old(levelsCache).value);
        }
      }
      levelsCache := Some(built);
    }
  }

  /** The level an upgrade type has in the prefs store (0 when never stored). */
  function StoredLevel(ints: map<string, int>, t: PermanentUpgradeType): int
  {
    if PrefsKey(t) in ints then ints[PrefsKey(t)] else 0
  }

  /** The names of the first n upgrade types. */
  function NamesUpTo(n: int): set<string>
    requires 0 <= n <= |AllPermanentUpgradeTypes|
  {
    set j | 0 <= j < n :: Name(AllPermanentUpgradeTypes[j])
  }

  /** Whether a levels dictionary records, for the first n upgrade types, exactly those stored above 0 with their levels. */
  ghost predicate CollectedUpTo(levels: map<string, int>, ints: map<string, int>, n: int)
    requires 0 <= n <= |AllPermanentUpgradeTypes|
  {
    levels.Keys <= NamesUpTo(n) &&
    forall j :: 0 <= j < n ==>
      (Name(AllPermanentUpgradeTypes[j]) in levels <==> StoredLevel(ints, AllPermanentUpgradeTypes[j]) > 0) &&
      (Name(AllPermanentUpgradeTypes[j]) in levels ==> levels[Name(AllPermanentUpgradeTypes[j])] == StoredLevel(ints, AllPermanentUpgradeTypes[j]))
  }

  /** One more type considered: its level is added when above 0, and the earlier types are unaffected. */
  lemma CollectStep(levels: map<string, int>, ints: map<string, int>, n: int)
    requires 0 <= n < |AllPermanentUpgradeTypes|
    requires CollectedUpTo(levels, ints, n)
    ensures var t := AllPermanentUpgradeTypes[n];
            CollectedUpTo(if StoredLevel(ints, t) > 0 then levels[Name(t) := StoredLevel(ints, t)] else levels, ints, n + 1)
  {
    var types := AllPermanentUpgradeTypes;
    var t := types[n];
    AllTypesListedOnce(t);
    forall j | 0 <= j < n ensures Name(types[j]) != Name(t) {
      if Name(types[j]) == Name(t) {
        NameInjective(types[j], t);
      }
    }
    assert Name(t) !in levels;
    assert NamesUpTo(n + 1) == NamesUpTo(n) + {Name(t)};
  }

  /** Having considered every type, the dictionary holds exactly the types stored above 0, keyed by name. */
  lemma CollectedAll(levels: map<string, int>, ints: map<string, int>)
    requires CollectedUpTo(levels, ints, |AllPermanentUpgradeTypes|)
    ensures forall t :: Name(t) in levels <==> StoredLevel(ints, t) > 0
    ensures forall t :: Name(t) in levels ==> levels[Name(t)] == StoredLevel(ints, t)
    ensures forall k :: k in levels ==> exists t :: Name(t) == k
  {
    forall t ensures (Name(t) in levels <==> StoredLevel(ints, t) > 0) && (Name(t) in levels ==> levels[Name(t)] == StoredLevel(ints, t)) {
      AllTypesListedOnce(t);
      var j :| 0 <= j < |AllPermanentUpgradeTypes| && AllPermanentUpgradeTypes[j] == t;
    }
    forall k | k in levels ensures exists t :: Name(t) == k {
      var j :| 0 <= j < |AllPermanentUpgradeTypes| && Name(AllPermanentUpgradeTypes[j]) == k;
    }
  }

  /**
   * Fills a fresh record from the prefs store: games played, best survival
   * time, the basic tank, and the level of every upgrade type stored above 0,
   * keyed by the type's name. The levels are written through the getter
   * after the initialiser's setter ran on an empty dictionary, so the
   * dictionary holds them while the entry list stays empty until the next
   * OnBeforeSerialize.
   */
  method GetMetaProgressionData(prefs: Prefs) returns (data: MetaProgressionData)
    ensures fresh(data)
    ensures data.unlockedTanks == ["BasicTank"]
    ensures data.totalGamesPlayed == prefs.GetInt("TotalGamesPlayed", 0)
    ensures data.bestSurvivalTime == prefs.GetFloat("BestSurvivalTime", 0.0)
    ensures data.upgradeEntries == Some([]) && data.levelsCache.Some?
    ensures forall t :: Name(t) in data.levelsCache.value <==> StoredLevel(prefs.ints, t) > 0
    ensures forall t :: Name(t) in data.levelsCache.value ==> data.levelsCache.value[Name(t)] == StoredLevel(prefs.ints, t)
    ensures forall k :: k in data.levelsCache.value ==> exists t :: Name(t) == k
  {
    data := new MetaProgressionData();
    data.SetPermanentUpgradeLevels(Some(map[]));
    data.unlockedTanks := ["BasicTank"];
    data.totalGamesPlayed := prefs.GetInt("TotalGamesPlayed", 0);
    data.bestSurvivalTime := prefs.GetFloat("BestSurvivalTime", 0.0);
    for i := 0 to |AllPermanentUpgradeTypes|
      invariant data.upgradeEntries == Some([]) && data.levelsCache.Some?
      invariant data.unlockedTanks == ["BasicTank"]
      invariant data.totalGamesPlayed == prefs.GetInt("TotalGamesPlayed", 0)
      invariant data.bestSurvivalTime == prefs.GetFloat("BestSurvivalTime", 0.0)
      invariant CollectedUpTo(data.levelsCache.value, prefs.ints, i)
    {
      var t := AllPermanentUpgradeTypes[i];
      var level := prefs.GetInt(PrefsKey(t), 0);
      CollectStep(data.levelsCache.value, prefs.ints, i);
      if level > 0 {
        data.SetLevelThroughGetter(Name(t), level);
      }
    }
    CollectedAll(data.levelsCache.value, prefs.ints);
  }
}
