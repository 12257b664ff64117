/**
  The Group model: a name and an ordered list of member identifiers that
  add_member and remove_member change in place.  The list is an object the
  group shares with whoever gave it or asked for it.
 */
module GroupModel {

  import opened Wrappers

  /** No identifier occurs twice. */
  predicate NoDuplicates(s: seq<string>) {
    forall i, j | 0 <= i < j < |s| :: s[i] != s[j]
  }

  /** The members after add_member: unchanged when already present, otherwise the new member at the end. */
  function WithMember(s: seq<string>, x: string): seq<string> {
    if x in s then s else s + [x]
  }

  /** The position of the first occurrence of x. */
  function FirstIndex(s: seq<string>, x: string): (i: nat)
    requires x in s
    ensures i < |s| && s[i] == x && x !in s[..i]
  {
    if s[0] == x then 0
    else
      var i := FirstIndex(s[1..], x) + 1;
      assert s[..i] == [s[0]] + s[1..][..i - 1];
      i
  }

  /** Python's list.remove, once the caller knows x is present; an absent x leaves the list as it is. */
  function RemoveFirst(s: seq<string>, x: string): (r: seq<string>)
    ensures x !in s ==> r == s
    ensures x in s ==> r == s[..FirstIndex(s, x)] + s[FirstIndex(s, x) + 1..]
  {
    if s == [] then []
    else if s[0] == x then s[1..]
    else
      var r := RemoveFirst(s[1..], x);
      if x in s[1..] then
        var i := FirstIndex(s[1..], x);
        assert FirstIndex(s, x) == i + 1;
        assert [s[0]] + s[1..][..i] == s[..i + 1];
        assert s[1..][i + 1..] == s[i + 2..];
        [s[0]] + r
      else
        [s[0]] + r
  }

  /** After add_member the member is present, earlier members keep their places, and nothing but the member is added. */
  lemma WithMemberSpec(s: seq<string>, x: string)
    ensures x in WithMember(s, x)
    ensures x in s ==> WithMember(s, x) == s
    ensures x !in s ==> WithMember(s, x) == s + [x]
    ensures |s| <= |WithMember(s, x)| && WithMember(s, x)[..|s|] == s
  {
  }

  /** Adding the same member twice is the same as adding it once. */
  lemma WithMemberIdempotent(s: seq<string>, x: string)
    ensures WithMember(WithMember(s, x), x) == WithMember(s, x)
  {
  }

  lemma WithMemberKeepsNoDuplicates(s: seq<string>, x: string)
    requires NoDuplicates(s)
    ensures NoDuplicates(WithMember(s, x))
  {
  }

  /** remove_member takes away exactly one occurrence of a present member and nothing else. */
  lemma {:induction false} RemoveFirstMultiset(s: seq<string>, x: string)
    ensures multiset(RemoveFirst(s, x)) == multiset(s) - multiset{x}
  {
    if s == [] {
    } else {
      assert s == [s[0]] + s[1..];
      if s[0] != x {
        RemoveFirstMultiset(s[1..], x);
        assert RemoveFirst(s, x) == [s[0]] + RemoveFirst(s[1..], x);
      }
    }
  }

  lemma {:induction false} RemoveFirstKeepsNoDuplicates(s: seq<string>, x: string)
    requires NoDuplicates(s)
    ensures NoDuplicates(RemoveFirst(s, x))
  {
    if x in s {
      CutKeepsNoDuplicates(s, FirstIndex(s, x));
    }
  }

  /** Cutting one position out of a duplicate-free list leaves it duplicate-free. */
  lemma CutKeepsNoDuplicates(s: seq<string>, i: nat)
    requires i < |s| && NoDuplicates(s)
    ensures NoDuplicates(s[..i] + s[i + 1..])
  {
    var r := s[..i] + s[i + 1..];
    forall a, b | 0 <= a < b < |r| ensures r[a] != r[b] {
      AfterRemovalAt(s, i, a);
      AfterRemovalAt(s, i, b);
    }
  }

  /** Where an element of the list with position i cut out came from. */
  lemma AfterRemovalAt(s: seq<string>, i: nat, a: nat)
    requires i < |s| && a < |s| - 1
    ensures (s[..i] + s[i + 1..])[a] == if a < i then s[a] else s[a + 1]
  {
  }

  /** With no duplicates, the removed member is gone afterwards. */
  lemma {:induction false} RemoveFirstRemovesAll(s: seq<string>, x: string)
    requires NoDuplicates(s)
    ensures x !in RemoveFirst(s, x)
  {
    RemoveFirstMultiset(s, x);
    if x in s {
      var i := FirstIndex(s, x);
      assert x !in s[i + 1..];
      assert x !in s[..i];
      assert RemoveFirst(s, x) == s[..i] + s[i + 1..];
    }
  }

  /** Removing a member that was just added to a list without it restores the list. */
  lemma {:induction false} RemoveUndoesAdd(s: seq<string>, x: string)
    requires x !in s
    ensures RemoveFirst(WithMember(s, x), x) == s
  {
    assert FirstIndex(s + [x], x) == |s|;
    assert (s + [x])[..|s|] == s;
  }

  /**
    A Python list of member identifiers.  It is one object: whoever holds
    it sees every change made through any other holder.
   */
  class MemberList {
    var items: seq<string>

    constructor (items: seq<string>)
      ensures this.items == items
    {
      this.items := items;
    }

    /** list.append. */
    method Append(x: string)
      modifies this
      ensures items == old(items) + [x]
    {
      items := items + [x];
    }

    /** list.remove of a present element (an absent one raises ValueError). */
    method Remove(x: string)
      requires x in items
      modifies this
      ensures items == RemoveFirst(old(items), x)
    {
      items := RemoveFirst(items, x);
    }
  }

  class Group {
    var name: string
    var members: MemberList

    /**
      With no list the group starts with a new empty one; a supplied list
      is kept itself, not copied, duplicates and all.
     */
    constructor (name: string, members: MemberList?)
      ensures this.name == name
      ensures members == null ==> fresh(this.members) && this.members.items == []
      ensures members != null ==> this.members == members
    {
      this.name := name;
      if members == null {
        this.members := new MemberList([]);
      } else {
        this.members := members;
      }
    }

    /** add_member changes the group's list in place; the name and the list object stay. */
    method AddMember(member: string)
      modifies members
      ensures members.items == WithMember(old(members.items), member)
      ensures NoDuplicates(old(members.items)) ==> NoDuplicates(members.items)
    {
      if NoDuplicates(members.items) {
        WithMemberKeepsNoDuplicates(members.items, member);
      }
      if member !in members.items {
        members.Append(member);
      }
    }

    /** remove_member changes the group's list in place; the name and the list object stay. */
    method RemoveMember(member: string)
      modifies members
      ensures members.items == RemoveFirst(old(members.items), member)
      ensures NoDuplicates(old(members.items)) ==> NoDuplicates(members.items) && member !in members.items
    {
      if NoDuplicates(members.items) {
        RemoveFirstKeepsNoDuplicates(members.items, member);
        RemoveFirstRemovesAll(members.items, member);
      }
      if member in members.items {
        members.Remove(member);
      }
    }

    /** get_members hands out the group's own list object, not a copy. */
    method GetMembers() returns (r: MemberList)
      ensures r == members
    {
      r := members;
    }
  }

  /**
    Because the group shares its list, an append made outside the group,
    through the list given to the constructor or the one get_members
    returns, reaches the group without the check of add_member: a
    duplicate gets in.
   */
  method DuplicateThroughSharedList(x: string) returns (viaCaller: Group, viaGetMembers: Group)
    ensures viaCaller.members.items == [x, x] && !NoDuplicates(viaCaller.members.items)
    ensures viaGetMembers.members.items == [x, x] && !NoDuplicates(viaGetMembers.members.items)
  {
    var given := new MemberList([x]);
    viaCaller := new Group("group", given);
    given.Append(x);
    viaGetMembers := new Group("group", null);
    viaGetMembers.AddMember(x);
    var handedOut := viaGetMembers.GetMembers();
    handedOut.Append(x);
    assert viaCaller.members.items[0] == viaCaller.members.items[1];
    assert viaGetMembers.members.items[0] == viaGetMembers.members.items[1];
  }
}
