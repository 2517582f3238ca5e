/** A to-many relationship with its inverse to-one reference, as SwiftData keeps
    `Member.shares` and `Share.member` in step. `owners` and `children` are the
    stored records by id; `list` reads an owner's to-many list and `back` a
    child's optional reference to its owner. */
module Links {
  import opened Common
  import opened Totals

  /** Every id an owner lists is a live child that points back at that owner. */
  ghost predicate Listed<O, C>(owners: map<nat, O>, children: map<nat, C>, list: O -> seq<nat>, back: C -> Option<nat>) {
    forall o, c :: o in owners && c in list(owners[o]) ==> c in children && back(children[c]) == Some(o)
  }

  /** Every child that points at an owner points at a live one that lists it. */
  ghost predicate Registered<O, C>(owners: map<nat, O>, children: map<nat, C>, list: O -> seq<nat>, back: C -> Option<nat>) {
    forall c :: c in children && back(children[c]).Some? ==>
      back(children[c]).value in owners && c in list(owners[back(children[c]).value])
  }

  /** No owner lists a child twice. */
  ghost predicate ListsDistinct<O>(owners: map<nat, O>, list: O -> seq<nat>) {
    forall o :: o in owners ==> NoDup(list(owners[o]))
  }

  /** A child is in `list(owners[o])` exactly when `back(child) == Some(o)`. */
  ghost predicate Inverse<O, C>(owners: map<nat, O>, children: map<nat, C>, list: O -> seq<nat>, back: C -> Option<nat>) {
    && Listed(owners, children, list, back)
    && Registered(owners, children, list, back)
    && ListsDistinct(owners, list)
  }

  /** The two directions of the relationship agree: a listed child points back,
      and a child pointing at an owner is listed by it. */
  lemma InverseAgrees<O, C>(owners: map<nat, O>, children: map<nat, C>, list: O -> seq<nat>, back: C -> Option<nat>, o: nat, c: nat)
    requires Inverse(owners, children, list, back)
    requires o in owners && c in children
    ensures c in list(owners[o]) <==> back(children[c]) == Some(o)
  {
  }

  /** Replacing owners and children by ones with the same ids, the same lists
      and the same references keeps the relationship. */
  lemma Transfer<O, C>(owners: map<nat, O>, children: map<nat, C>, owners': map<nat, O>, children': map<nat, C>,
                       list: O -> seq<nat>, back: C -> Option<nat>)
    requires Inverse(owners, children, list, back)
    requires owners'.Keys == owners.Keys && children'.Keys == children.Keys
    requires forall o :: o in owners ==> list(owners'[o]) == list(owners[o])
    requires forall c :: c in children ==> back(children'[c]) == back(children[c])
    ensures Inverse(owners', children', list, back)
  {
  }

  /** A new owner with an empty list joins the relationship. */
  lemma AddOwner<O, C>(owners: map<nat, O>, children: map<nat, C>, owners': map<nat, O>,
                       list: O -> seq<nat>, back: C -> Option<nat>, o: nat)
    requires Inverse(owners, children, list, back)
    requires o !in owners && owners'.Keys == owners.Keys + {o} && list(owners'[o]) == []
    requires forall o1 :: o1 in owners ==> list(owners'[o1]) == list(owners[o1])
    ensures Inverse(owners', children, list, back)
  {
    forall c | c in children && back(children[c]).Some?
      ensures back(children[c]).value in owners' && c in list(owners'[back(children[c]).value])
    {
      assert back(children[c]).value in owners;
    }
  }

  /** A new child `c` that points at `o` joins the relationship once `o`'s
      list has it appended. */
  lemma AddChild<O, C>(owners: map<nat, O>, children: map<nat, C>, owners': map<nat, O>, children': map<nat, C>,
                       list: O -> seq<nat>, back: C -> Option<nat>, c: nat, o: nat)
    requires Inverse(owners, children, list, back)
    requires c !in children && o in owners
    requires owners'.Keys == owners.Keys && children'.Keys == children.Keys + {c}
    requires back(children'[c]) == Some(o)
    requires forall c1 :: c1 in children ==> back(children'[c1]) == back(children[c1])
    requires list(owners'[o]) == list(owners[o]) + [c]
    requires forall o1 :: o1 in owners && o1 != o ==> list(owners'[o1]) == list(owners[o1])
    ensures Inverse(owners', children', list, back)
  {
    forall o1, c1 | o1 in owners' && c1 in list(owners'[o1])
      ensures c1 in children' && back(children'[c1]) == Some(o1)
    {
      if o1 == o && c1 == c {
      } else if o1 == o {
        assert c1 in list(owners[o]);
      } else {
        assert c1 in list(owners[o1]);
      }
    }
    forall c1 | c1 in children' && back(children'[c1]).Some?
      ensures back(children'[c1]).value in owners' && c1 in list(owners'[back(children'[c1]).value])
    {
      if c1 != c {
        assert back(children'[c1]) == back(children[c1]);
      }
    }
    forall o1 | o1 in owners' ensures NoDup(list(owners'[o1])) {
      if o1 == o {
        assert c !in list(owners[o]);
      }
    }
  }

  /** Deleting child `c` keeps the relationship once every owner's list drops it
      (SwiftData unlists a deleted record from every relationship that holds it). */
  lemma DropChild<O, C>(owners: map<nat, O>, children: map<nat, C>, owners': map<nat, O>, children': map<nat, C>,
                        list: O -> seq<nat>, back: C -> Option<nat>, c: nat)
    requires Inverse(owners, children, list, back)
    requires owners'.Keys == owners.Keys && children'.Keys == children.Keys - {c}
    requires forall c1 :: c1 in children' ==> back(children'[c1]) == back(children[c1])
    requires forall o :: o in owners ==> list(owners'[o]) == Without(list(owners[o]), c)
    ensures Inverse(owners', children', list, back)
  {
    forall o1, c1 | o1 in owners' && c1 in list(owners'[o1])
      ensures c1 in children' && back(children'[c1]) == Some(o1)
    {
      assert c1 in list(owners[o1]) && c1 != c;
    }
    forall c1 | c1 in children' && back(children'[c1]).Some?
      ensures back(children'[c1]).value in owners' && c1 in list(owners'[back(children'[c1]).value])
    {
      assert back(children'[c1]) == back(children[c1]);
    }
  }

  /** Deleting owner `o`, with SwiftData's nullify rule: the children that
      pointed at it now point nowhere. */
  lemma DropOwner<O, C>(owners: map<nat, O>, children: map<nat, C>, owners': map<nat, O>, children': map<nat, C>,
                        list: O -> seq<nat>, back: C -> Option<nat>, o: nat)
    requires Inverse(owners, children, list, back)
    requires owners'.Keys == owners.Keys - {o} && children'.Keys == children.Keys
    requires forall o1 :: o1 in owners' ==> list(owners'[o1]) == list(owners[o1])
    requires forall c :: c in children ==>
      back(children'[c]) == if back(children[c]) == Some(o) then None else back(children[c])
    ensures Inverse(owners', children', list, back)
  {
    forall o1, c1 | o1 in owners' && c1 in list(owners'[o1])
      ensures c1 in children' && back(children'[c1]) == Some(o1)
    {
      assert c1 in list(owners[o1]);
    }
    forall c1 | c1 in children' && back(children'[c1]).Some?
      ensures back(children'[c1]).value in owners' && c1 in list(owners'[back(children'[c1]).value])
    {
      assert back(children[c1]) == back(children'[c1]);
    }
  }
}
