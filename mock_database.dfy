/**
 * The subscriber store (services/mockDatabase.ts): an append-only list of
 * signups kept whole in one storage slot, and a displayed subscriber count
 * that starts from a fixed offset.
 */
module MockDatabase {
  import opened Wrappers
  import opened Types

  /** The number the displayed count starts from. */
  const CountOffset: nat := 15420

  /** A slot that holds nothing reads as the empty list. */
  function ReadUsers(slot: Option<seq<UserSubscription>>): seq<UserSubscription>
  {
    match slot
    case None => []
    case Some(users) => users
  }

  /** The displayed count for a stored list: its length, raised by the offset. */
  function DisplayedCount(users: seq<UserSubscription>): nat
  {
    |users| + CountOffset
  }

  /** The slot after one record is saved: the whole list read, the record pushed, the list written back. */
  function Appended(slot: Option<seq<UserSubscription>>, user: UserSubscription): Option<seq<UserSubscription>>
  {
    Some(ReadUsers(slot) + [user])
  }

  /** The slot after saving `users` one after another, first to last. */
  function AppendedAll(slot: Option<seq<UserSubscription>>, users: seq<UserSubscription>): Option<seq<UserSubscription>>
    decreases |users|
  {
    if users == [] then slot
    else Appended(AppendedAll(slot, users[..|users| - 1]), users[|users| - 1])
  }

  /** A save appends exactly its record and keeps every earlier one, in order. */
  lemma AppendedKeepsEarlierRecords(slot: Option<seq<UserSubscription>>, user: UserSubscription)
    ensures |ReadUsers(Appended(slot, user))| == |ReadUsers(slot)| + 1
    ensures ReadUsers(Appended(slot, user))[|ReadUsers(slot)|] == user
    ensures forall i :: 0 <= i < |ReadUsers(slot)| ==> ReadUsers(Appended(slot, user))[i] == ReadUsers(slot)[i]
  {
  }

  /** Saving a sequence of records appends exactly them, in order, to what was stored. */
  lemma {:induction false} AppendedAllReads(slot: Option<seq<UserSubscription>>, users: seq<UserSubscription>)
    ensures ReadUsers(AppendedAll(slot, users)) == ReadUsers(slot) + users
    decreases |users|
  {
    if users != [] {
      var front := users[..|users| - 1];
      AppendedAllReads(slot, front);
      assert users == front + [users[|users| - 1]];
    }
  }

  /** Every save raises the displayed count by one, from any starting slot. */
  lemma {:induction false} CountAfterSaves(slot: Option<seq<UserSubscription>>, users: seq<UserSubscription>)
    ensures DisplayedCount(ReadUsers(AppendedAll(slot, users))) == DisplayedCount(ReadUsers(slot)) + |users|
  {
    AppendedAllReads(slot, users);
  }

  /** From an absent slot, N saves give a displayed count of N plus the offset. */
  lemma {:induction false} CountFromEmptySlot(users: seq<UserSubscription>)
    ensures DisplayedCount(ReadUsers(AppendedAll(None, users))) == |users| + 15420
  {
    CountAfterSaves(None, users);
  }

  /**
   * The browser storage slot holding the subscriber list. The slot is modelled
   * as already holding the list (or nothing), not its serialised text.
   */
  class UserStore {
    var slot: Option<seq<UserSubscription>>

    constructor (initial: Option<seq<UserSubscription>>)
      ensures slot == initial
    {
      slot := initial;
    }

    /** The list as every read of the slot sees it. */
    function Users(): seq<UserSubscription>
      reads this
    {
      ReadUsers(slot)
    }

    /**
     * Records a signup. The id and the timestamp, which the source draws from a
     * random generator and the clock, are passed in. No field is validated.
     */
    method SaveUser(name: string, phone: string, grantType: GrantType, id: string, subscribedAt: string)
      returns (newUser: UserSubscription)
      modifies this
      ensures newUser == UserSubscription(id, name, phone, grantType, subscribedAt)
      ensures slot == Appended(old(slot), newUser)
      ensures Users() == old(Users()) + [newUser]
      ensures DisplayedCount(Users()) == DisplayedCount(old(Users())) + 1
    {
      newUser := UserSubscription(id, name, phone, grantType, subscribedAt);
      var users := ReadUsers(slot);
      users := users + [newUser];
      slot := Some(users);
    }

    /** The displayed subscriber count; it leaves the slot as it is. */
    method GetUserCount() returns (count: int)
      ensures count == DisplayedCount(Users())
      ensures Users() == [] ==> count == 15420
      ensures count >= 15420
    {
      var users := ReadUsers(slot);
      count := if |users| > 0 then |users| + 15420 else 15420;
    }
  }

  /**
   * Signups made one after another from a session: each record's id and
   * timestamp are those its save is given.
   */
  method SaveAll(store: UserStore, signups: seq<UserSubscription>) returns (saved: seq<UserSubscription>)
    modifies store
    ensures saved == signups
    ensures store.slot == AppendedAll(old(store.slot), signups)
    ensures store.Users() == old(store.Users()) + signups
    ensures DisplayedCount(store.Users()) == DisplayedCount(old(store.Users())) + |signups|
  {
    saved := [];
    var i := 0;
    while i < |signups|
      invariant 0 <= i <= |signups|
      invariant saved == signups[..i]
      invariant store.slot == AppendedAll(old(store.slot), signups[..i])
    {
      var s := signups[i];
      var user := store.SaveUser(s.name, s.phone, s.grantType, s.id, s.subscribedAt);
      assert signups[..i + 1][..i] == signups[..i];
      saved := saved + [user];
      i := i + 1;
    }
    assert signups[..i] == signups;
    AppendedAllReads(old(store.slot), signups);
  }
}
