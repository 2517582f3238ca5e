# ShareSplit ledger model

ShareSplit is an iOS app for splitting recurring subscriptions (streaming, software, utilities) among a group of people. A **subscription** has a price, a billing cycle and a category. The price is divided into **shares**, one per **member**. A member who pays records a **payment log**. A single **settings** record holds the default currency and the user's own name.

Behind the screens sits a small shared-cost ledger. Each member carries a running `totalBalance`: it rises when a share is assigned to the member and falls when the member pays. A positive balance means the member owes; a negative one means the member is owed.

This project models that ledger and the screen logic around it, and proves properties about both.

- **Records.** `Models` has one datatype per persisted record. A reference to another record is that record's id. Dates are integer timestamps. Money is `real`.
- **Store.** `Store.Ledger` is a class whose fields are the record maps, the settings list in fetch order, and the next fresh id.
  - Every button action that changes stored data is a method of the class. The method updates the fields in place, in the order the app does.
  - Each method states its new state as a pure transition function of the old one. The transitions live in `ShareOps`, `SubscriptionOps`, `PaymentOps`, `MemberOps`, `MemberDeletion`, `SubscriptionCreation` and `SettingsOps`.
  - Lemmas beside each transition state what it changes and what it keeps.
- **Invariant.** Every method requires and keeps `Valid()`, which is `StoreState.Coherent`. It is `StoreState.Linked` together with `StoreState.Balanced`, and holds four things:
  - the four to-many relationships (member/shares, subscription/shares, member/payments, subscription/payments) agree with the back-references;
  - `SharesAttached`: every share has both a member and a subscription;
  - `IdsFresh`: every id in use is below the next fresh id, and the settings records have distinct ids;
  - every member's balance equals its share amounts minus its payments.

  `SharesAttached` holds in the app for three reasons. Shares are only ever created with both a member and a subscription. `deleteMember` deletes the member's own shares before it deletes the member. No screen deletes a subscription.
- **Screen logic.** The read-only logic of each screen is pure functions: price validation, split checks, button gating, analytics, the hub's burn rate and countdown, the reminder text, and the preset table.
- **Settings screen.** `SettingsScreen.SettingsForm` is a class holding the screen's own state.

The model follows the code, including these behaviours a reader might not expect:

- **Adding a member on the edit screen.** `addSelectedMember` does not check whether the member already holds a share of the subscription. Only the picker's list keeps existing holders out.
- **Recording a payment.** The payment sheet's `save` does not check the amount. Only the Save button's `canSave` requires it to be positive.
- **Recalculating equal shares.** `recalcEqualShares` divides the total currently typed on the edit screen, not the stored one. It divides by the number of the subscription's shares, whether or not each has a member. A share without a member cannot arise in a valid store (see `SharesAttached` above), so the model never shows that case.
- **Deleting a member.** `deleteMember` leaves the deleted member's own balance alone. The record is deleted anyway.
- **Cancel on the edit screen.** It writes the draft's date, cost and currency nowhere. Share edits, adds and removes were already applied when made: they are separate `Store.Ledger` methods.

## Model

| member | source | states |
|---|---|---|
| Models.NewMemberDefaults | Project-28-01-26-2/Models/Member.swift:20-34 | a new member has a zero balance, empty email and phone, and no shares or payments |
| Models.NewShareDefaults | Project-28-01-26-2/Models/Share.swift:13-25 | a new share keeps its amount, is not fixed, and has no member or subscription yet |
| Models.NewPaymentLogDefaults | Project-28-01-26-2/Models/PaymentLog.swift:16-34 | a new payment keeps its amount, is unsettled, in "USD", with no note, payer or subscription |
| Models.NewSubscriptionDefaults | Project-28-01-26-2/Models/Subscription.swift:40-62 | a new subscription is active, in "USD", with the card icon, monthly, in Media, and has no shares or payments |
| Models.BillingCycleSetGet | Project-28-01-26-2/Models/Subscription.swift:24-27 | setting the billing cycle then reading it gives the value set; only the raw field changes |
| Models.UnknownBillingCycleIsMonthly | Project-28-01-26-2/Models/Subscription.swift:24-27 | a raw string naming no cycle reads as monthly |
| Models.CategorySetGet | Project-28-01-26-2/Models/Subscription.swift:29-32 | setting the category then reading it gives the value set; only the raw field changes |
| Models.UnknownCategoryIsOther | Project-28-01-26-2/Models/Subscription.swift:29-32 | a raw string naming no category reads as Other |
| Models.MonthlyEquivalent | Project-28-01-26-2/Models/Subscription.swift:65-70 | the cost itself for monthly, a twelfth for yearly; for a non-negative cost it lies in [0, cost] |
| Models.ResolvedDefaultCurrency | Project-28-01-26-2/Models/AppSettings.swift:25-27 | "USD" when the currency is missing or blank after trimming, else the trimmed currency |
| Models.ResolvedCurrencyTrimmed | Project-28-01-26-2/Models/AppSettings.swift:26 | the resolved currency is never empty and is already trimmed |
| Text.Trim | Project-28-01-26-2/Models/AppSettings.swift:26 | the result is the piece of the input left once a whitespace prefix and a whitespace suffix are removed; it is empty iff the input is all whitespace; otherwise it neither starts nor ends with whitespace |
| Text.TrimIdempotent | Project-28-01-26-2/Views/AddEditMemberView.swift:51 | trimming a trimmed string changes nothing |
| Text.TrimUnpadded | Project-28-01-26-2/Views/AnalyticsView.swift:27 | a string with no whitespace at either end is its own trim |
| Categories.AllCategories | Project-28-01-26-2/Models/SubscriptionCategory.swift:4-8 | exactly four distinct cases, in declaration order: Media, Software, Utilities, Other |
| Categories.CategoryListed | Project-28-01-26-2/Models/SubscriptionCategory.swift:4-8 | every category is listed among the cases |
| Categories.CategoryDisplayName | Project-28-01-26-2/Models/SubscriptionCategory.swift:10 | the shown name is non-empty and reads back as the same category |
| Categories.CategoryFromRaw | Project-28-01-26-2/Models/SubscriptionCategory.swift:5-8 | a found case has that raw value; nothing is found only when no case has it |
| Categories.CategoryRawRoundTrip | Project-28-01-26-2/Models/SubscriptionCategory.swift:5-8 | each case's raw value reads back as that case, so raw values are distinct |
| Categories.AllBillingCycles | Project-28-01-26-2/Models/Subscription.swift:4-9 | exactly two distinct billing cycles |
| Categories.BillingCycleFromRaw | Project-28-01-26-2/Models/Subscription.swift:4-9 | a found cycle has that raw value; nothing is found only when no cycle has it |
| Categories.BillingCycleRawRoundTrip | Project-28-01-26-2/Models/Subscription.swift:4-9 | each cycle's raw value reads back as that cycle |
| Presets.PresetFor | Project-28-01-26-2/Helpers/SubscriptionPresets.swift:24-26 | the first preset with the id, or nothing exactly when no preset has it |
| Presets.PresetIdsDistinct | Project-28-01-26-2/Helpers/SubscriptionPresets.swift:12-22 | no two presets share an id |
| Presets.PresetLookupExact | Project-28-01-26-2/Helpers/SubscriptionPresets.swift:12-26 | looking up a listed preset's id returns that very preset |
| Presets.PresetTableShape | Project-28-01-26-2/Helpers/SubscriptionPresets.swift:13-21 | nine presets, "netflix" first, and a "custom" preset in category Other |
| Presets.PresetNamesNonEmpty | Project-28-01-26-2/Helpers/SubscriptionPresets.swift:12-22 | every preset has a non-empty service name and icon |
| Common.Filter | Project-28-01-26-2/Views/NewSubscriptionFlowView.swift:42-44 | keeps exactly the elements satisfying the test, in order, without adding duplicates |
| Common.FilterAppend | Project-28-01-26-2/Views/NewSubscriptionFlowView.swift:42-44 | filtering distributes over concatenation |
| Common.FirstIndex | Project-28-01-26-2/Views/AnalyticsView.swift:29 | the earliest position satisfying the test, or nothing exactly when none does |
| StoreState.EmptyLedgerCoherent | Project-28-01-26-2/Models/Member.swift:14-18 | an empty store satisfies the relationship and balance invariant |
| StoreState.MemberSharesOwned | Project-28-01-26-2/Models/Member.swift:14-15 | a member lists each of its shares once, and each names it as member |
| StoreState.MemberPaymentsOwned | Project-28-01-26-2/Models/Member.swift:17-18 | a member lists each of its payments once, and each names it as payer |
| StoreState.ShareOwners | Project-28-01-26-2/Models/Share.swift:10-11 | in a coherent store a share's member and subscription exist and list it |
| NewSubscriptionFlow.CurrencyOnAppear | Project-28-01-26-2/Views/NewSubscriptionFlowView.swift:168-172 | on step 0 the currency becomes the first settings record's resolved currency, or "USD"; never empty |
| NewSubscriptionFlow.SelectPreset | Project-28-01-26-2/Views/NewSubscriptionFlowView.swift:163-167 | a non-custom preset's category is adopted; otherwise the category is kept; no other wizard field changes |
| NewSubscriptionFlow.ServiceName | Project-28-01-26-2/Views/NewSubscriptionFlowView.swift:30-35 | never empty; the typed name for the custom preset, "Custom service" when that name is blank, the preset's name for a known preset, and "Custom service" for an unknown id |
| NewSubscriptionFlow.EffectiveIconName | Project-28-01-26-2/Views/NewSubscriptionFlowView.swift:37-40 | the picked icon for the custom preset, the preset's icon for a known preset, and "creditcard.fill" for an unknown id |
| NewSubscriptionFlow.PickedPresetAdopted | Project-28-01-26-2/Views/NewSubscriptionFlowView.swift:30-40 | after picking a listed non-custom preset, the subscription is saved under that preset's name, icon and category, and the typed name and picked icon are kept |
| NewSubscriptionFlow.SelectedMembers | Project-28-01-26-2/Views/NewSubscriptionFlowView.swift:42-44 | exactly the listed members that are selected, without duplicates |
| NewSubscriptionFlow.EqualSplitSumsToTotal | Project-28-01-26-2/Views/NewSubscriptionFlowView.swift:46-50 | an equal split's sum of shares is exactly the price |
| NewSubscriptionFlow.ClampPrice | Project-28-01-26-2/Views/NewSubscriptionFlowView.swift:180-186 | the corrected price is always valid, a valid price is kept, out-of-range input goes to the nearer bound |
| NewSubscriptionFlow.EqualSplitValidity | Project-28-01-26-2/Views/NewSubscriptionFlowView.swift:60-64 | with an equal split the shares are valid iff someone is selected and the price is positive |
| NewSubscriptionFlow.ConfirmEnabled | Project-28-01-26-2/Views/NewSubscriptionFlowView.swift:84-89 | Next is always on at step 0, on at step 1 iff the price is valid; Save is on iff the shares are valid |
| NewSubscriptionFlow.Next | Project-28-01-26-2/Views/NewSubscriptionFlowView.swift:84-86 | moves exactly one step on, only before the last step and only when enabled |
| NewSubscriptionFlow.ToggleMember | Project-28-01-26-2/Views/NewSubscriptionFlowView.swift:215-223 | turning a member off also forgets its amount; nobody else's selection or amount changes |
| NewSubscriptionFlow.PlannedTotalCustom | Project-28-01-26-2/Views/NewSubscriptionFlowView.swift:317-323 | custom amounts saved add up to the sum of the entered amounts, a missing one counting 0 |
| NewSubscriptionFlow.PlannedTotalWhole | Project-28-01-26-2/Views/NewSubscriptionFlowView.swift:309-320 | equal parts saved for every selected member add up to the price |
| NewSubscriptionFlow.PlannedTotalIsSumOfShares | Project-28-01-26-2/Views/NewSubscriptionFlowView.swift:46-54 | with somebody selected, the amounts the save creates add up to the wizard's `sumOfShares` |
| NewSubscriptionFlow.SavedSharesMatchPrice | Project-28-01-26-2/Views/NewSubscriptionFlowView.swift:88-89 | a save the Save button allows creates shares matching the price within 0.01 |
| NewSubscriptionFlow.InitialFlowGating | Project-28-01-26-2/Views/NewSubscriptionFlowView.swift:12-23 | a fresh wizard can leave step 0, cannot save, and names the service "Netflix" |
| SubscriptionCreation.SubscriptionSavedCoherent | Project-28-01-26-2/Views/NewSubscriptionFlowView.swift:297-332 | saving a new subscription keeps the store coherent |
| SubscriptionCreation.SubscriptionSavedRecord | Project-28-01-26-2/Views/NewSubscriptionFlowView.swift:298-307 | the new subscription gets a fresh id and lists the new shares in selection order |
| SubscriptionCreation.SubscriptionSavedKeeps | Project-28-01-26-2/Views/NewSubscriptionFlowView.swift:297-332 | no existing subscription, share, payment or setting changes |
| SubscriptionCreation.SubscriptionSavedShare | Project-28-01-26-2/Views/NewSubscriptionFlowView.swift:317-325 | each selected member gets one share of its planned amount, fixed exactly for a custom split |
| SubscriptionCreation.SubscriptionSavedSum | Project-28-01-26-2/Views/NewSubscriptionFlowView.swift:309-329 | the new share sum is the planned total: `sumOfShares`, and the price itself for an equal split |
| SubscriptionCreation.SubscriptionSavedBalances | Project-28-01-26-2/Views/NewSubscriptionFlowView.swift:328 | a selected member's balance rises by its amount; everyone else's stays |
| ShareOps.SharesPlannedList | Project-28-01-26-2/Views/NewSubscriptionFlowView.swift:317-327 | the save loop appends one fresh share per member, in order |
| ShareOps.SharesPlannedCreates | Project-28-01-26-2/Views/NewSubscriptionFlowView.swift:317-327 | the i-th member's share names it and the subscription and holds its planned amount |
| ShareOps.SharesPlannedSum | Project-28-01-26-2/Views/NewSubscriptionFlowView.swift:317-329 | the loop raises the subscription's share sum by the planned total |
| ShareOps.SharesPlannedBalances | Project-28-01-26-2/Views/NewSubscriptionFlowView.swift:328 | the loop raises each planned member's balance by its amount |
| ShareOps.SharesPlannedCoherent | Project-28-01-26-2/Views/NewSubscriptionFlowView.swift:317-329 | the save loop keeps the store coherent |
| ShareOps.SharesPlannedKeeps | Project-28-01-26-2/Views/NewSubscriptionFlowView.swift:317-329 | the loop changes no earlier share, no other subscription, no payment or setting |
| Store.Ledger.SaveSubscription | Project-28-01-26-2/Views/NewSubscriptionFlowView.swift:297-332 | keeps the invariant; returns the new subscription's id; the new state is the planned save |
| Store.Ledger.WriteShares | Project-28-01-26-2/Views/NewSubscriptionFlowView.swift:317-329 | the loop over the selected members produces the planned shares, one per iteration |
| EditSubscription.OnAppear | Project-28-01-26-2/Views/EditSubscriptionView.swift:109-113 | the draft takes the subscription's date, cost and currency; the add picker is untouched |
| EditSubscription.Edited | Project-28-01-26-2/Views/EditSubscriptionView.swift:154-160 | Save writes exactly the draft's date, cost and currency, keeping shares and payments |
| EditSubscription.UneditedSaveIsIdentity | Project-28-01-26-2/Views/EditSubscriptionView.swift:109-113 | saving a draft loaded and left unchanged changes nothing |
| EditSubscription.ConsistentSubscriptionSaves | Project-28-01-26-2/Views/EditSubscriptionView.swift:18-25 | a subscription whose shares add up to its cost can be saved unedited |
| EditSubscription.MembersWithShares | Project-28-01-26-2/Views/EditSubscriptionView.swift:28 | exactly the members named by the subscription's shares |
| EditSubscription.MembersNotInSubscription | Project-28-01-26-2/Views/EditSubscriptionView.swift:27-30 | exactly the listed members holding none of the subscription's shares, in order |
| EditSubscription.AfterAdd | Project-28-01-26-2/Views/EditSubscriptionView.swift:136-137 | after an add the picker is cleared, so Add is disabled again |
| ShareOps.AmountSetCoherent | Project-28-01-26-2/Views/EditSubscriptionView.swift:47-53 | setting a share's amount through its member keeps the store coherent |
| ShareOps.AmountSetKeepsDifference | Project-28-01-26-2/Views/EditSubscriptionView.swift:49-52 | balance minus share amount is preserved; the share sum moves by the change |
| Store.Ledger.SetShareAmount | Project-28-01-26-2/Views/EditSubscriptionView.swift:47-53 | keeps the invariant; the new state is the amount change with its balance delta |
| ShareOps.ShareDeletedOwed | Project-28-01-26-2/Views/EditSubscriptionView.swift:118 | deleting a share leaves balances alone and takes its amount off what its member owes |
| ShareOps.ShareRemovedCoherent | Project-28-01-26-2/Views/EditSubscriptionView.swift:116-120 | removing a share through its member keeps the store coherent |
| ShareOps.ShareRemovedEffect | Project-28-01-26-2/Views/EditSubscriptionView.swift:116-120 | the member's balance drops by the amount, the share leaves the sum, and no cost changes |
| Store.Ledger.RemoveShare | Project-28-01-26-2/Views/EditSubscriptionView.swift:116-120 | keeps the invariant; the new state is the debit followed by the deletion |
| ShareOps.ShareAddedCoherent | Project-28-01-26-2/Views/EditSubscriptionView.swift:125-134 | creating a share linked both ways and charged to its member keeps the store coherent |
| ShareOps.ShareAddedSums | Project-28-01-26-2/Views/EditSubscriptionView.swift:131-134 | creating a share raises its subscription's sum by the amount and no other sum |
| Store.Ledger.AddSelectedMember | Project-28-01-26-2/Views/EditSubscriptionView.swift:122-138 | keeps the invariant; a resolved pick adds one fixed share and clears the picker; otherwise nothing changes |
| ShareOps.AmountsSetCoherent | Project-28-01-26-2/Views/EditSubscriptionView.swift:144-150 | the recalculation loop keeps the store coherent |
| ShareOps.RecalculatedCoherent | Project-28-01-26-2/Views/EditSubscriptionView.swift:140-152 | recalculating keeps the store coherent |
| ShareOps.RecalculatedSplitsEvenly | Project-28-01-26-2/Views/EditSubscriptionView.swift:140-152 | every share gets an equal part, they add up to the edited total, and `isFixed` and the rest stay |
| Store.Ledger.RecalcEqualShares | Project-28-01-26-2/Views/EditSubscriptionView.swift:140-152 | keeps the invariant; the new state is the recalculation over the share list |
| SubscriptionOps.SubscriptionEditedEffect | Project-28-01-26-2/Views/EditSubscriptionView.swift:154-160 | Save keeps the store coherent, touches no share or balance, and writes only the three fields |
| Store.Ledger.SaveEdit | Project-28-01-26-2/Views/EditSubscriptionView.swift:154-160 | keeps the invariant; the new state is the edited subscription |
| SubscriptionOps.DeactivatedEffect | Project-28-01-26-2/Views/SubscriptionDetailView.swift:53-55 | marking inactive keeps the store coherent and changes only `isActive` |
| Store.Ledger.MarkInactive | Project-28-01-26-2/Views/SubscriptionDetailView.swift:53-55 | keeps the invariant; the subscription becomes inactive |
| MembersDirectory.BalanceColor | Project-28-01-26-2/Views/MembersDirectoryView.swift:128-132 | owes iff positive, owed iff negative, neutral iff zero |
| MembersDirectory.BalanceColorAntisymmetric | Project-28-01-26-2/Models/Member.swift:10-11 | opposite balances get opposite tones |
| MemberDeletion.MemberDeletedCoherent | Project-28-01-26-2/Views/MembersDirectoryView.swift:74-92 | deleting a member keeps the store coherent |
| MemberDeletion.MemberDeletedMembers | Project-28-01-26-2/Views/MembersDirectoryView.swift:74-92 | the member is gone; every other member, balance included, is exactly as it was |
| MemberDeletion.MemberDeletedShares | Project-28-01-26-2/Views/MembersDirectoryView.swift:78-81 | all of the member's shares are deleted, no share names it, the others are unchanged |
| MemberDeletion.MemberDeletedAffected | Project-28-01-26-2/Views/MembersDirectoryView.swift:84-88 | each affected subscription's cost becomes its remaining share sum, 0 when none remain |
| MemberDeletion.MemberDeletedUnaffected | Project-28-01-26-2/Views/MembersDirectoryView.swift:75-76 | subscriptions outside the affected set are exactly as they were |
| MemberDeletion.MemberDeletedPayments | Project-28-01-26-2/Models/Member.swift:17 | the member's payments survive without a payer; the rest are unchanged |
| MemberDeletion.SharesDeletedShares | Project-28-01-26-2/Views/MembersDirectoryView.swift:79-81 | exactly the listed shares are deleted |
| MemberDeletion.SharesDeletedOtherMember | Project-28-01-26-2/Views/MembersDirectoryView.swift:79-81 | a member with none of the deleted shares keeps its record and what it owes |
| MemberDeletion.StageOne | Project-28-01-26-2/Views/MembersDirectoryView.swift:79-82 | after the shares are gone no share names the member and every other balance is right |
| SubscriptionOps.CostsResetEffect | Project-28-01-26-2/Views/MembersDirectoryView.swift:85-88 | only the affected costs change, each to its share sum |
| SubscriptionOps.CostsResetStep | Project-28-01-26-2/Views/MembersDirectoryView.swift:85 | the order in which the set is visited does not matter |
| Store.Ledger.DeleteMember | Project-28-01-26-2/Views/MembersDirectoryView.swift:74-92 | keeps the invariant; the new state is the three-stage deletion |
| Store.Ledger.ResetCosts | Project-28-01-26-2/Views/MembersDirectoryView.swift:85-88 | the loop over the affected set resets each cost |
| AddPaymentLog.Resolve | Project-28-01-26-2/Views/AddPaymentLogView.swift:19-25 | a selection resolves iff it names a listed record |
| AddPaymentLog.PickableSubscriptions | Project-28-01-26-2/Views/AddPaymentLogView.swift:37 | the picker offers exactly the active subscriptions |
| AddPaymentLog.CanSave | Project-28-01-26-2/Views/AddPaymentLogView.swift:27-29 | Save is on iff both pickers resolve and the amount is positive |
| AddPaymentLog.CurrencyOnSelect | Project-28-01-26-2/Views/AddPaymentLogView.swift:69-73 | a resolving choice proposes its currency; otherwise the field is kept |
| PaymentOps.PaymentAddedCoherent | Project-28-01-26-2/Views/AddPaymentLogView.swift:77-93 | recording a payment keeps the store coherent |
| PaymentOps.PaymentAddedOwed | Project-28-01-26-2/Views/AddPaymentLogView.swift:88-90 | what the payer owes drops by the amount; nobody else's changes |
| PaymentOps.PaymentAddedEffect | Project-28-01-26-2/Views/AddPaymentLogView.swift:79-90 | the payer's balance drops by exactly the amount; the log is new and unsettled; no share or cost changes |
| Store.Ledger.RecordPayment | Project-28-01-26-2/Views/AddPaymentLogView.swift:77-93 | keeps the invariant; with both selections resolved the payment is recorded, otherwise nothing changes |
| PaymentLogList.History | Project-28-01-26-2/Views/PaymentLogView.swift:6 | every payment exactly once, the latest first |
| PaymentLogList.Settled | Project-28-01-26-2/Views/PaymentLogView.swift:22-24 | the log becomes settled, no longer offers the action, and nothing else changes |
| PaymentLogList.SettledIdempotent | Project-28-01-26-2/Views/PaymentLogView.swift:53-56 | settling twice is settling once |
| PaymentOps.LogSettledCoherent | Project-28-01-26-2/Views/PaymentLogView.swift:53-56 | settling keeps the store coherent |
| PaymentOps.LogSettledEffect | Project-28-01-26-2/Views/PaymentLogView.swift:53-56 | only the log's flag changes: no amount, balance or other log; settling again changes nothing |
| Store.Ledger.MarkSettled | Project-28-01-26-2/Views/PaymentLogView.swift:53-56 | keeps the invariant; the log becomes settled |
| MemberOps.SaveEnabled | Project-28-01-26-2/Views/AddEditMemberView.swift:37 | Save is on iff the name has a character other than whitespace |
| MemberOps.MemberAddedEffect | Project-28-01-26-2/Views/AddEditMemberView.swift:57-59 | exactly one member is added, with a zero balance; nobody else changes |
| MemberOps.MemberEditedEffect | Project-28-01-26-2/Views/AddEditMemberView.swift:53-56 | editing changes only the member's name, email and phone |
| MemberOps.MemberEditedCoherent | Project-28-01-26-2/Views/AddEditMemberView.swift:53-56 | editing keeps the store coherent |
| MemberOps.MemberSavedEffect | Project-28-01-26-2/Views/AddEditMemberView.swift:50-63 | keeps the store coherent; a blank name saves nothing; an edited member takes the trimmed name, email and phone and keeps its balance and relationships; a new member has the trimmed name (non-empty, no whitespace at either end), the email and phone, and a zero balance; every other member and every other record is unchanged |
| MemberOps.UnchangedMemberSaveIsIdentity | Project-28-01-26-2/Views/AddEditMemberView.swift:40-46 | saving the fields loaded from a member unchanged leaves the store as it was |
| Store.Ledger.SaveMember | Project-28-01-26-2/Views/AddEditMemberView.swift:50-63 | keeps the invariant; the new state is the sheet's save |
| SettingsOps.MostRecentIndex | Project-28-01-26-2/Views/SettingsView.swift:97 | a record with the largest `updatedAt`, the first such |
| SettingsOps.SettingsEnsuredCoherent | Project-28-01-26-2/Views/SettingsView.swift:88-103 | the first run keeps the store coherent |
| SettingsOps.SettingsEnsuredEffect | Project-28-01-26-2/Views/SettingsView.swift:88-103 | afterwards exactly one record exists: the default, or a most recent one; nothing else changes |
| SettingsOps.SettingsEnsuredIdempotent | Project-28-01-26-2/Views/SettingsView.swift:88-103 | running it again changes nothing |
| SettingsOps.DefaultCurrencyResolved | Project-28-01-26-2/Views/SettingsView.swift:92 | the inserted default record resolves to "USD" |
| SettingsOps.SettingsDeletedEffect | Project-28-01-26-2/Views/SettingsView.swift:98-100 | deleting keeps exactly the records with another id and the store coherent |
| SettingsOps.SettingsSavedEffect | Project-28-01-26-2/Views/SettingsView.swift:105-118 | keeps the store coherent; the first record holds the form's values; an empty list gains one record |
| SettingsOps.SaveThenLoad | Project-28-01-26-2/Views/SettingsView.swift:81-86 | loading after a save gives back the name and the trimmed currency ("USD" if blank) |
| SettingsScreen.SettingsForm.constructor | Project-28-01-26-2/Views/SettingsView.swift:11-14 | the form opens with "USD", no name, no banner, not yet ensured |
| SettingsScreen.SettingsForm.LoadSettingsIntoState | Project-28-01-26-2/Views/SettingsView.swift:81-86 | the form takes the first record's resolved currency and name; with no record it is unchanged |
| SettingsScreen.SettingsForm.EnsureSingleSettings | Project-28-01-26-2/Views/SettingsView.swift:88-103 | acts once per screen; keeps the invariant; the new state is the ensured one |
| SettingsScreen.SettingsForm.KeepOnly | Project-28-01-26-2/Views/SettingsView.swift:97-100 | the deletion loop leaves only the most recent record |
| SettingsScreen.SettingsForm.OnAppear | Project-28-01-26-2/Views/SettingsView.swift:71-74 | on first appearance exactly one record remains (the ensured one); on a later appearance the store is unchanged; the form then shows the first record's resolved currency and name, and keeps its values when there is none; the "Saved" flag is kept |
| SettingsScreen.SettingsForm.Save | Project-28-01-26-2/Views/SettingsView.swift:105-119 | keeps the invariant; the store gets the form's values and the banner shows |
| Analytics.ActiveSubscriptions | Project-28-01-26-2/Views/AnalyticsView.swift:6-7 | exactly the active subscriptions |
| Analytics.MonthlyTotalNonNegative | Project-28-01-26-2/Views/AnalyticsView.swift:22-24 | with no negative cost the monthly total is not negative |
| Analytics.CategoryTotalsCoverAll | Project-28-01-26-2/Views/AnalyticsView.swift:14-17 | the four category totals add up to the monthly total |
| Analytics.SpendingByCategory | Project-28-01-26-2/Views/AnalyticsView.swift:14-20 | one entry per category with a positive total, holding that total, in case order |
| Analytics.SpendingCoversMonthlyCost | Project-28-01-26-2/Views/AnalyticsView.swift:14-24 | with no negative cost the chart's entries add up to the total monthly cost |
| Analytics.CurrentUserMember | Project-28-01-26-2/Views/AnalyticsView.swift:26-30 | nothing for a blank name, else the first member in name order matching it ignoring case |
| Analytics.UserShareTotal | Project-28-01-26-2/Views/AnalyticsView.swift:32-35 | 0 without a current user, else the sum of that member's share amounts |
| Analytics.MoneySaved | Project-28-01-26-2/Views/AnalyticsView.swift:37-39 | never negative; total minus the user's shares when that is positive |
| Analytics.NoUserSavesEverything | Project-28-01-26-2/Views/AnalyticsView.swift:69-71 | without a current user the whole monthly cost shows as saved |
| SubscriptionsHub.ActiveByBillingDate | Project-28-01-26-2/Views/SubscriptionsHubView.swift:6-7 | exactly the active subscriptions, each once, soonest bill first |
| SubscriptionsHub.MonthlyTotalPermutation | Project-28-01-26-2/Views/SubscriptionsHubView.swift:9-11 | the monthly total does not depend on order |
| SubscriptionsHub.TotalMonthlyBurn | Project-28-01-26-2/Views/SubscriptionsHubView.swift:9-11 | 0 when nothing is active |
| SubscriptionsHub.BurnMatchesAnalytics | Project-28-01-26-2/Views/SubscriptionsHubView.swift:9-11 | the hub's burn equals the analytics total monthly cost |
| SubscriptionsHub.BurnNonNegative | Project-28-01-26-2/Views/SubscriptionsHubView.swift:9-11 | with no negative cost the burn is not negative |
| SubscriptionsHub.CountdownLabel | Project-28-01-26-2/Views/SubscriptionsHubView.swift:108-110 | "Overdue" iff the day count is negative, else the count followed by " days" |
| SubscriptionsHub.CountdownReadsBack | Project-28-01-26-2/Views/SubscriptionsHubView.swift:109-112 | an overdue bill is urgent; a day-count label reads back as its count |
| Text.DecimalRoundTrip | Project-28-01-26-2/Views/SubscriptionsHubView.swift:110 | a rendered count reads back as that count |
| Reminder.ContactName | Project-28-01-26-2/Views/ReminderConstructorView.swift:47 | the untrimmed user name when non-empty, else "the organizer"; never empty |
| Reminder.SharesWithMember | Project-28-01-26-2/Views/ReminderConstructorView.swift:48-49 | exactly the subscription's shares that have a member |
| Reminder.LinesFor | Project-28-01-26-2/Views/ReminderConstructorView.swift:48-51 | one line per such share, in order, naming its member and amount |
| Text.Join | Project-28-01-26-2/Views/ReminderConstructorView.swift:54 | empty for no parts, the part itself for one, otherwise it starts with the first part and the separator; its length is the parts' lengths plus one separator between each two neighbours |
| Reminder.MessagePreview | Project-28-01-26-2/Views/ReminderConstructorView.swift:46-55 | the placeholder without lines, else the lines joined by blank lines |
| Reminder.PlaceholderRefused | Project-28-01-26-2/Views/ReminderConstructorView.swift:27 | the placeholder cannot be copied |
| Reminder.JoinedLinesAccepted | Project-28-01-26-2/Views/ReminderConstructorView.swift:38-44 | joined reminder lines can be copied |
| Reminder.CopyOfferedIffSomeMember | Project-28-01-26-2/Views/ReminderConstructorView.swift:27-31 | Copy and Share are on iff some share of the subscription has a member |
| Reminder.SingleMemberMessage | Project-28-01-26-2/Views/ReminderConstructorView.swift:52-54 | one member's share gives exactly its one line |
| Ordering.SortBy | Project-28-01-26-2/Views/SubscriptionsHubView.swift:6 | a permutation of the input in ascending key order |

## Left out

- Networking, Firebase and remote configuration (`Project_28_01_26_2App.swift`) are I/O. They are not part of this model.
- `Formatters.swift` is not part of this model. The currency renderer is a parameter `fmt` of the reminder functions. The day count until a bill is a parameter of `SubscriptionsHub.CountdownLabel`.
- `CurrencyOptions.swift`, `SubscriptionIconOptions.swift` and `ContentView.swift` are static lists and a placeholder. They are not part of this model.
- UUIDs become fresh natural-number ids. `Date()` becomes an integer timestamp passed in as `now`.
- `Double` becomes `real`, so rounding in `totalCost / n` is not modelled. `isFinite` holds of every real, so `IsPriceValid` checks only the range.
- `try? modelContext.save()` failures are swallowed by the app. The model treats each action as one step that always succeeds, including the two saves inside `deleteMember`.
- A new share or payment names its owners in its initializer, and the app then appends it to the owners' lists. Whether SwiftData's own inverse maintenance would list it a second time is not modelled. In the model each owner lists it exactly once.
- The cascade deletion of a subscription's shares and payments is declared but no screen ever deletes a subscription, so it is not modelled.
- UI-only state is not modelled:
  - the "Saved" and "Copied!" banners' timed reset;
  - the pasteboard;
  - sheets and navigation;
  - the theme picker;
  - the member-delete alert text.
- `@Query` live updates: each function takes the current query results as arguments.
- Analytics.CurrentUserMember: `localizedCaseInsensitiveCompare` is modelled as equality after lower-casing ASCII letters only. Locale-aware case folding is not modelled.
- SettingsOps.MostRecentIndex: Swift's `sorted` is not stable, so among records with the same latest `updatedAt` the app may keep any of them. The model keeps the first; the contract of `SettingsEnsuredEffect` only promises a record with the latest time.
- Store.Ledger.WriteShares: the app computes the equal-split amount once before the loop. The model computes the same value (the price divided by the head count) inside each iteration.
- ShareOps.SharesPlanned: a member id missing from the store is skipped. The save only ever passes members from the members query, so the case does not arise.
- Member, Share and PaymentLog are records in the maps of one `Store.Ledger` object rather than objects of their own. Aliasing between views of the same record is therefore not modelled; every update goes through the store.
