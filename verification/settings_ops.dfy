/** The settings screen's record changes, as transitions of the stored state:
    making sure exactly one settings record exists, and saving the form into
    the first record. The settings list is in fetch order; the screen reads
    its first record. */
module SettingsOps {
  import opened Common
  import opened Text
  import opened Models
  import opened StoreState

  /** The position of the most recent record: the first one whose `updatedAt`
      is the largest. */
  function MostRecentIndex(list: seq<AppSettings>): (r: nat)
    requires list != []
    ensures r < |list|
    ensures forall j :: 0 <= j < |list| ==> list[j].updatedAt <= list[r].updatedAt
    ensures forall j :: 0 <= j < r ==> list[j].updatedAt < list[r].updatedAt
  {
    if |list| == 1 then 0
    else
      var k := MostRecentIndex(list[..|list| - 1]);
      if list[|list| - 1].updatedAt > list[k].updatedAt then |list| - 1 else k
  }

  /** A new record `nextId` is inserted. */
  function SettingsInserted(st: LedgerState, currency: Option<string>, userName: string, now: int): LedgerState {
    st.(settings := st.settings + [NewAppSettings(st.nextId, currency, userName, now)], nextId := st.nextId + 1)
  }

  /** `modelContext.delete` of the record with id `id`. */
  function SettingsDeleted(st: LedgerState, id: SettingsId): LedgerState {
    st.(settings := Filter(st.settings, (a: AppSettings) => a.id != id))
  }

  /** The first record takes the form's currency and name, stamped `now`. */
  function SettingsUpdated(st: LedgerState, currency: string, userName: string, now: int): LedgerState
    requires st.settings != []
  {
    st.(settings := st.settings[0 := st.settings[0].(defaultCurrency := Some(currency), userName := userName, updatedAt := now)])
  }

  /** `ensureSingleSettings` on its first run: with no record, a default one is
      inserted; with several, only the most recent is kept; a single record
      stays as it is. */
  function SettingsEnsured(st: LedgerState, now: int): LedgerState {
    if st.settings == [] then SettingsInserted(st, Some("USD"), "", now)
    else if |st.settings| > 1 then st.(settings := [st.settings[MostRecentIndex(st.settings)]])
    else st
  }

  /** The screen's Save: the first record is updated, or one is inserted. */
  function SettingsSaved(st: LedgerState, currency: string, userName: string, now: int): LedgerState {
    if st.settings == [] then SettingsInserted(st, Some(currency), userName, now)
    else SettingsUpdated(st, currency, userName, now)
  }

  /** Replacing the settings list by one with distinct, allocated ids keeps
      the store coherent; no other record depends on the settings. */
  lemma SettingsReplacedCoherent(st: LedgerState, list: seq<AppSettings>, n: nat)
    requires Coherent(st) && st.nextId <= n
    requires SettingsDistinct(list) && forall a :: a in list ==> a.id < n
    ensures Coherent(st.(settings := list, nextId := n))
  {
  }

  /** Inserting a record with the next id keeps the store coherent. */
  lemma SettingsInsertedCoherent(st: LedgerState, currency: Option<string>, userName: string, now: int)
    requires Coherent(st)
    ensures Coherent(SettingsInserted(st, currency, userName, now))
  {
    var list := SettingsInserted(st, currency, userName, now).settings;
    assert forall i :: 0 <= i < |st.settings| ==> list[i] == st.settings[i] && list[i] in st.settings;
    SettingsReplacedCoherent(st, list, st.nextId + 1);
  }

  /** Deleting keeps exactly the records with another id, in their order. */
  lemma SettingsDeletedEffect(st: LedgerState, id: SettingsId)
    requires Coherent(st)
    ensures var r := SettingsDeleted(st, id);
      && Coherent(r)
      && (forall a :: a in r.settings <==> a in st.settings && a.id != id)
      && r.(settings := st.settings) == st
  {
    var list := Filter(st.settings, (a: AppSettings) => a.id != id);
    SubsequenceDistinct(st.settings, (a: AppSettings) => a.id != id);
    SettingsReplacedCoherent(st, list, st.nextId);
  }

  /** Filtering keeps ids distinct. */
  lemma {:induction false} SubsequenceDistinct(list: seq<AppSettings>, p: AppSettings -> bool)
    requires SettingsDistinct(list)
    ensures SettingsDistinct(Filter(list, p))
  {
    if list != [] {
      var init := list[..|list| - 1];
      var last := list[|list| - 1];
      assert SettingsDistinct(init);
      SubsequenceDistinct(init, p);
      forall a | a in Filter(init, p) ensures a.id != last.id {
        var i :| 0 <= i < |init| && init[i] == a;
        assert list[i] == a;
      }
    }
  }

  /** A distinct-id list whose only element is `x` is `[x]`. */
  lemma OnlyRecord(list: seq<AppSettings>, x: AppSettings)
    requires SettingsDistinct(list) && forall a :: a in list <==> a == x
    ensures list == [x]
  {
    assert x in list;
    forall i | 0 <= i < |list| ensures list[i] == x {
      assert list[i] in list;
    }
    assert |list| < 2 || list[0].id == list[1].id;
  }

  /** Two records of a distinct-id list with the same id are the same record. */
  lemma SameIdSameRecord(list: seq<AppSettings>, a: AppSettings, b: AppSettings)
    requires SettingsDistinct(list) && a in list && b in list && a.id == b.id
    ensures a == b
  {
    var i :| 0 <= i < |list| && list[i] == a;
    var j :| 0 <= j < |list| && list[j] == b;
    assert i == j;
  }

  /** The first run keeps the store coherent. */
  lemma SettingsEnsuredCoherent(st: LedgerState, now: int)
    requires Coherent(st)
    ensures Coherent(SettingsEnsured(st, now))
  {
    if st.settings == [] {
      SettingsReplacedCoherent(st, [NewAppSettings(st.nextId, Some("USD"), "", now)], st.nextId + 1);
    } else if |st.settings| > 1 {
      var k := MostRecentIndex(st.settings);
      SettingsReplacedCoherent(st, [st.settings[k]], st.nextId);
    }
  }

  /** After the first run exactly one record exists: the inserted default when
      there was none, else the most recent of the records found (the first
      of them when several share the latest time). Nothing else changes. */
  lemma SettingsEnsuredEffect(st: LedgerState, now: int)
    ensures var r := SettingsEnsured(st, now);
      && |r.settings| == 1
      && (st.settings == [] ==> r.settings[0] == NewAppSettings(st.nextId, Some("USD"), "", now))
      && (st.settings != [] ==> r.settings[0] in st.settings
                                && forall a :: a in st.settings ==> a.updatedAt <= r.settings[0].updatedAt)
      && r.members == st.members && r.shares == st.shares && r.subscriptions == st.subscriptions
      && r.logs == st.logs
  {
    if st.settings != [] {
      var k := MostRecentIndex(st.settings);
      forall a | a in st.settings ensures a.updatedAt <= st.settings[k].updatedAt {
        var j :| 0 <= j < |st.settings| && st.settings[j] == a;
      }
    }
  }

  /** A record made with the default currency resolves to "USD". */
  lemma DefaultCurrencyResolved(id: SettingsId, userName: string, now: int)
    ensures ResolvedDefaultCurrency(NewAppSettings(id, Some("USD"), userName, now)) == "USD"
  {
    TrimUnpadded("USD");
  }

  /** Running it a second time changes nothing. */
  lemma SettingsEnsuredIdempotent(st: LedgerState, now: int, later: int)
    ensures SettingsEnsured(SettingsEnsured(st, now), later) == SettingsEnsured(st, now)
  {
    assert |SettingsEnsured(st, now).settings| == 1;
  }

  /** Save keeps the store coherent; afterwards the first record holds the
      form's values and time, every other record is as it was, and a list
      with no record gains exactly one. */
  lemma SettingsSavedEffect(st: LedgerState, currency: string, userName: string, now: int)
    requires Coherent(st)
    ensures var r := SettingsSaved(st, currency, userName, now);
      && Coherent(r)
      && |r.settings| == (if st.settings == [] then 1 else |st.settings|)
      && r.settings[0].defaultCurrency == Some(currency) && r.settings[0].userName == userName
      && r.settings[0].updatedAt == now
      && (st.settings != [] ==> r.settings[1..] == st.settings[1..])
      && r.members == st.members && r.shares == st.shares && r.subscriptions == st.subscriptions
      && r.logs == st.logs
  {
    var r := SettingsSaved(st, currency, userName, now);
    if st.settings == [] {
      SettingsReplacedCoherent(st, r.settings, st.nextId + 1);
    } else {
      assert SettingsDistinct(r.settings) by {
        forall i, j | 0 <= i < j < |r.settings| ensures r.settings[i].id != r.settings[j].id {
          assert r.settings[i].id == st.settings[i].id && r.settings[j].id == st.settings[j].id;
        }
      }
      assert forall a :: a in r.settings ==> a.id < st.nextId by {
        forall a | a in r.settings ensures a.id < st.nextId {
          var i :| 0 <= i < |r.settings| && r.settings[i] == a;
          assert st.settings[i].id == a.id;
        }
      }
      SettingsReplacedCoherent(st, r.settings, st.nextId);
    }
  }

  /** Loading the form after a save (the first record's resolved currency
      and name) gives back the name, and the currency trimmed, "USD" when it
      was blank: the form round-trips through the record whenever its
      currency is already trimmed and not blank. */
  lemma SaveThenLoad(st: LedgerState, currency: string, userName: string, now: int)
    ensures var r := SettingsSaved(st, currency, userName, now);
      && r.settings != []
      && ResolvedDefaultCurrency(r.settings[0]) == (if Trim(currency) == [] then "USD" else Trim(currency))
      && r.settings[0].userName == userName
      && (currency != [] && Trim(currency) == currency ==> ResolvedDefaultCurrency(r.settings[0]) == currency)
  {
    var r := SettingsSaved(st, currency, userName, now);
    assert r.settings != [] && r.settings[0].defaultCurrency == Some(currency) && r.settings[0].userName == userName;
  }
}
