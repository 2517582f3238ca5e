/** The member sheet's Save, as a transition of the stored state: the trimmed
    name either overwrites an existing member's contact fields or creates a
    new member with a zero balance. */
module MemberOps {
  import opened Common
  import opened Text
  import opened Models
  import opened Totals
  import opened Links
  import opened StoreState

  /** A new member `nextId` with a zero balance and no shares or payments. */
  function MemberAdded(st: LedgerState, name: string, email: string, phone: string, now: int): LedgerState {
    st.(members := st.members[st.nextId := NewMember(name, email, phone, createdAt := now)], nextId := st.nextId + 1)
  }

  lemma MemberAddedLinked(st: LedgerState, name: string, email: string, phone: string, now: int)
    requires Linked(st)
    ensures Linked(MemberAdded(st, name, email, phone, now))
  {
    var r := MemberAdded(st, name, email, phone, now);
    AddOwner(st.members, st.shares, r.members, MemberShares, ShareMember, st.nextId);
    AddOwner(st.members, st.logs, r.members, MemberPayments, LogPayer, st.nextId);
  }

  /** Adding a member keeps the store coherent: a member with no shares and no
      payments owes nothing, and its balance starts at zero. */
  lemma MemberAddedCoherent(st: LedgerState, name: string, email: string, phone: string, now: int)
    requires Coherent(st)
    ensures Coherent(MemberAdded(st, name, email, phone, now))
  {
    MemberAddedLinked(st, name, email, phone, now);
  }

  /** Exactly one member is added, with the given contact fields, a zero
      balance and empty relationships; every existing member stays as it was. */
  lemma MemberAddedEffect(st: LedgerState, name: string, email: string, phone: string, now: int)
    requires IdsFresh(st)
    ensures var r := MemberAdded(st, name, email, phone, now);
      && st.nextId !in st.members && r.members.Keys == st.members.Keys + {st.nextId}
      && r.members[st.nextId].name == name && r.members[st.nextId].email == email
      && r.members[st.nextId].phone == phone
      && r.members[st.nextId].totalBalance == 0.0
      && r.members[st.nextId].shares == [] && r.members[st.nextId].paymentsMade == []
      && Owed(r.members[st.nextId], r.shares, r.logs) == 0.0
      && (forall k :: k in st.members ==> r.members[k] == st.members[k])
      && r.shares == st.shares && r.subscriptions == st.subscriptions && r.logs == st.logs
  {
  }

  /** Member `m`'s name, email and phone are overwritten. */
  function MemberEdited(st: LedgerState, m: MemberId, name: string, email: string, phone: string): LedgerState
    requires m in st.members
  {
    st.(members := st.members[m := st.members[m].(name := name, email := email, phone := phone)])
  }

  lemma MemberEditedLinked(st: LedgerState, m: MemberId, name: string, email: string, phone: string)
    requires Linked(st) && m in st.members
    ensures Linked(MemberEdited(st, m, name, email, phone))
  {
    var r := MemberEdited(st, m, name, email, phone);
    Transfer(st.members, st.shares, r.members, r.shares, MemberShares, ShareMember);
    Transfer(st.members, st.logs, r.members, r.logs, MemberPayments, LogPayer);
  }

  /** Editing keeps the store coherent: the balance and both relationships
      stay as they were. */
  lemma MemberEditedCoherent(st: LedgerState, m: MemberId, name: string, email: string, phone: string)
    requires Coherent(st) && m in st.members
    ensures Coherent(MemberEdited(st, m, name, email, phone))
  {
    MemberEditedLinked(st, m, name, email, phone);
    var r := MemberEdited(st, m, name, email, phone);
    assert forall k :: k in r.members ==> Owed(r.members[k], r.shares, r.logs) == Owed(st.members[k], st.shares, st.logs);
  }

  /** Editing touches only the member's three contact fields. */
  lemma MemberEditedEffect(st: LedgerState, m: MemberId, name: string, email: string, phone: string)
    requires m in st.members
    ensures var r := MemberEdited(st, m, name, email, phone);
      && r.members.Keys == st.members.Keys
      && r.members[m].name == name && r.members[m].email == email && r.members[m].phone == phone
      && r.members[m].(name := st.members[m].name, email := st.members[m].email,
                       phone := st.members[m].phone) == st.members[m]
      && (forall k :: k in st.members && k != m ==> r.members[k] == st.members[k])
      && r.shares == st.shares && r.subscriptions == st.subscriptions && r.logs == st.logs
  {
  }

  /** The sheet's Save button is enabled exactly when the name has a
      character other than whitespace. */
  function SaveEnabled(name: string): (r: bool)
    ensures r <==> exists i :: 0 <= i < |name| && !IsWhitespace(name[i])
  {
    Trim(name) != []
  }

  /** The sheet's Save: the name is trimmed of whitespace; an empty
      trimmed name saves nothing; otherwise the member being edited is
      overwritten, or a new member is created. */
  function MemberSaved(st: LedgerState, member: Option<MemberId>, name: string, email: string,
                       phone: string, now: int): LedgerState
    requires member.Some? ==> member.value in st.members
  {
    var trimmed := Trim(name);
    if trimmed == [] then st
    else if member.Some? then MemberEdited(st, member.value, trimmed, email, phone)
    else MemberAdded(st, trimmed, email, phone, now)
  }

  /** Save keeps the store coherent; it stores the trimmed name, which is
      never empty and neither starts nor ends with whitespace; a name of
      whitespace only changes nothing; an edited member takes the new contact
      fields and keeps its balance and relationships; every other member
      stays as it was. */
  lemma MemberSavedEffect(st: LedgerState, member: Option<MemberId>, name: string, email: string,
                          phone: string, now: int)
    requires Coherent(st) && (member.Some? ==> member.value in st.members)
    ensures var r := MemberSaved(st, member, name, email, phone, now);
      && Coherent(r)
      && ((forall i :: 0 <= i < |name| ==> IsWhitespace(name[i])) ==> r == st)
      && (member.Some? ==> r.members.Keys == st.members.Keys)
      && (member.Some? && Trim(name) != [] ==>
            r.members[member.value] == st.members[member.value].(name := Trim(name), email := email, phone := phone))
      && (member.None? && Trim(name) != [] ==> |r.members.Keys| == |st.members.Keys| + 1)
      && (forall k :: k in st.members && (member.None? || k != member.value) ==> r.members[k] == st.members[k])
      && r.shares == st.shares && r.subscriptions == st.subscriptions && r.logs == st.logs
      && forall k :: k in r.members && k !in st.members ==>
           && r.members[k].name == Trim(name) && r.members[k].name != []
           && !IsWhitespace(r.members[k].name[0])
           && !IsWhitespace(r.members[k].name[|r.members[k].name| - 1])
           && r.members[k].email == email && r.members[k].phone == phone
           && r.members[k].totalBalance == 0.0
  {
    var t := Trim(name);
    var r := MemberSaved(st, member, name, email, phone, now);
    if t == [] {
      assert r == st;
    } else {
      if member.Some? {
        assert r == MemberEdited(st, member.value, t, email, phone);
        SavedAsEdit(st, member.value, t, email, phone);
      } else {
        assert r == MemberAdded(st, t, email, phone, now);
        SavedAsNew(st, t, email, phone, now);
        NewMemberNamed(st, t, email, phone, now);
      }
    }
  }

  /** The edit path of Save, for a trimmed name `t`. */
  lemma SavedAsEdit(st: LedgerState, m: MemberId, t: string, email: string, phone: string)
    requires Coherent(st) && m in st.members
    ensures var r := MemberEdited(st, m, t, email, phone);
      && Coherent(r) && r.members.Keys == st.members.Keys
      && r.members[m] == st.members[m].(name := t, email := email, phone := phone)
      && (forall k :: k in st.members && k != m ==> r.members[k] == st.members[k])
      && r.shares == st.shares && r.subscriptions == st.subscriptions && r.logs == st.logs
  {
    MemberEditedCoherent(st, m, t, email, phone);
  }

  /** The add path of Save, for a trimmed name `t`. */
  lemma SavedAsNew(st: LedgerState, t: string, email: string, phone: string, now: int)
    requires Coherent(st)
    ensures var r := MemberAdded(st, t, email, phone, now);
      && Coherent(r) && |r.members.Keys| == |st.members.Keys| + 1
      && (forall k :: k in st.members ==> r.members[k] == st.members[k])
      && r.shares == st.shares && r.subscriptions == st.subscriptions && r.logs == st.logs
  {
    MemberAddedCoherent(st, t, email, phone, now);
    MemberAddedEffect(st, t, email, phone, now);
  }

  /** The member the add path creates carries the trimmed name `t`, the
      contact fields and a zero balance. */
  lemma NewMemberNamed(st: LedgerState, t: string, email: string, phone: string, now: int)
    requires t != [] && !IsWhitespace(t[0]) && !IsWhitespace(t[|t| - 1])
    ensures var r := MemberAdded(st, t, email, phone, now);
      forall k :: k in r.members && k !in st.members ==>
        && r.members[k].name == t && r.members[k].name != []
        && !IsWhitespace(r.members[k].name[0])
        && !IsWhitespace(r.members[k].name[|r.members[k].name| - 1])
        && r.members[k].email == email && r.members[k].phone == phone
        && r.members[k].totalBalance == 0.0
  {
  }

  /** Opening the sheet on a member loads its contact fields; saving them
      unchanged leaves the store as it was when the stored name is already
      trimmed (as every name the sheet saves is). */
  lemma UnchangedMemberSaveIsIdentity(st: LedgerState, m: MemberId, now: int)
    requires m in st.members
    requires st.members[m].name != [] && Trim(st.members[m].name) == st.members[m].name
    ensures MemberSaved(st, Some(m), st.members[m].name, st.members[m].email, st.members[m].phone, now) == st
  {
    var mem := st.members[m];
    assert MemberSaved(st, Some(m), mem.name, mem.email, mem.phone, now) == MemberEdited(st, m, mem.name, mem.email, mem.phone);
    EditUnchanged(st, m);
  }

  /** Overwriting a member's contact fields with their own values changes nothing. */
  lemma EditUnchanged(st: LedgerState, m: MemberId)
    requires m in st.members
    ensures MemberEdited(st, m, st.members[m].name, st.members[m].email, st.members[m].phone) == st
  {
    var mem := st.members[m];
    assert mem.(name := mem.name, email := mem.email, phone := mem.phone) == mem;
    assert st.members[m := mem] == st.members;
  }
}
