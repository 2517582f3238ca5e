/** The settings screen: its form state, and the actions that move values
    between the form and the settings records of the store. */
module SettingsScreen {
  import opened Common
  import opened Models
  import opened StoreState
  import opened SettingsOps
  import opened Store

  /** A coherent store's settings records have distinct ids. */
  lemma CoherentSettingsDistinct(st: LedgerState)
    requires Coherent(st)
    ensures SettingsDistinct(st.settings)
  {
  }

  /** The screen's `@State` values. The "Saved" banner's timed reset is not
      modelled. */
  class SettingsForm {
    var defaultCurrency: string
    var nameInReminders: string
    var saved: bool
    var hasEnsuredSettings: bool

    /** The values the screen opens with. */
    constructor ()
      ensures defaultCurrency == "USD" && nameInReminders == "" && !saved && !hasEnsuredSettings
    {
      defaultCurrency, nameInReminders, saved, hasEnsuredSettings := "USD", "", false, false;
    }

    /** `loadSettingsIntoState`: the form takes the first record's resolved
        currency and name; with no record it keeps its values. */
    method LoadSettingsIntoState(store: Ledger)
      modifies this
      ensures store.settings != [] ==>
        defaultCurrency == ResolvedDefaultCurrency(store.settings[0]) && nameInReminders == store.settings[0].userName
      ensures store.settings == [] ==> defaultCurrency == old(defaultCurrency) && nameInReminders == old(nameInReminders)
      ensures saved == old(saved) && hasEnsuredSettings == old(hasEnsuredSettings)
    {
      var list := store.settings;
      if list != [] {
        var first := list[0];
        defaultCurrency := ResolvedDefaultCurrency(first);
        nameInReminders := first.userName;
      }
    }

    /** `ensureSingleSettings`: it acts once per screen. A store without a
        settings record gets the default one; of several, the most recent is
        kept and every record with another id is deleted. */
    method EnsureSingleSettings(store: Ledger, now: int)
      requires store.Valid()
      modifies this, store
      ensures store.Valid() && hasEnsuredSettings
      ensures old(hasEnsuredSettings) ==> store.State() == old(store.State())
      ensures !old(hasEnsuredSettings) ==> store.State() == SettingsEnsured(old(store.State()), now)
      ensures defaultCurrency == old(defaultCurrency) && nameInReminders == old(nameInReminders) && saved == old(saved)
    {
      if hasEnsuredSettings {
        return;
      }
      hasEnsuredSettings := true;
      if store.settings == [] {
        store.InsertSettings(Some("USD"), "", now);
      } else if |store.settings| > 1 {
        KeepOnly(store);
      }
    }

    /** The deletion loop over the records as fetched, keeping the most
        recent one. */
    method KeepOnly(store: Ledger)
      requires store.Valid() && |store.settings| > 1
      modifies store
      ensures store.Valid()
      ensures store.State() == old(store.State()).(settings := [old(store.settings)[MostRecentIndex(old(store.settings))]])
    {
      ghost var st0 := store.State();
      var list := store.settings;
      CoherentSettingsDistinct(st0);
      var kept := list[MostRecentIndex(list)];
      var i := 0;
      while i < |list|
        invariant 0 <= i <= |list|
        invariant store.Valid()
        invariant store.State() == st0.(settings := store.settings)
        invariant forall a :: a in store.settings <==> a in list && (a == kept || a !in list[..i])
      {
        if list[i].id != kept.id {
          store.DeleteSettings(list[i].id);
        }
        forall a | a in list
          ensures a in store.settings <==> a == kept || a !in list[..i + 1]
        {
          assert a in list[..i + 1] <==> a in list[..i] || a == list[i];
          if a.id == list[i].id {
            SameIdSameRecord(list, a, list[i]);
          }
          if kept.id == list[i].id {
            SameIdSameRecord(list, kept, list[i]);
          }
        }
        i := i + 1;
      }
      CoherentSettingsDistinct(store.State());
      OnlyRecord(store.settings, kept);
    }

    /** The screen's appearance: the single record is ensured, then loaded. On
        the first appearance exactly one record remains; on a later one the
        store is left alone. Either way the form then shows the first record's
        resolved currency and name, and keeps its values when there is none. */
    method OnAppear(store: Ledger, now: int)
      requires store.Valid()
      modifies this, store
      ensures store.Valid() && hasEnsuredSettings
      ensures !old(hasEnsuredSettings) ==> store.State() == SettingsEnsured(old(store.State()), now)
      ensures !old(hasEnsuredSettings) ==> |store.settings| == 1
      ensures old(hasEnsuredSettings) ==> store.State() == old(store.State())
      ensures store.settings != [] ==>
        defaultCurrency == ResolvedDefaultCurrency(store.settings[0]) && nameInReminders == store.settings[0].userName
      ensures store.settings == [] ==> defaultCurrency == old(defaultCurrency) && nameInReminders == old(nameInReminders)
      ensures saved == old(saved)
    {
      EnsureSingleSettings(store, now);
      if !old(hasEnsuredSettings) {
        SettingsEnsuredEffect(old(store.State()), now);
      }
      LoadSettingsIntoState(store);
    }

    /** The screen's Save: the form is written into the first record, or into
        a new record when there is none, and the banner shows. */
    method Save(store: Ledger, now: int)
      requires store.Valid()
      modifies this, store
      ensures store.Valid()
      ensures store.State() == SettingsSaved(old(store.State()), old(defaultCurrency), old(nameInReminders), now)
      ensures saved && defaultCurrency == old(defaultCurrency) && nameInReminders == old(nameInReminders)
      ensures hasEnsuredSettings == old(hasEnsuredSettings)
    {
      if store.settings != [] {
        store.UpdateFirstSettings(defaultCurrency, nameInReminders, now);
      } else {
        store.InsertSettings(Some(defaultCurrency), nameInReminders, now);
      }
      saved := true;
    }
  }
}
