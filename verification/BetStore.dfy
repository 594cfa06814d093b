/** The in-memory bet store. */
module BetStore {
  import opened Basics
  import opened Bets
  import opened BetOrder

  datatype Error = Conflict | NotFound

  ghost function PendingSet(bets: map<string, Bet>): set<Bet> {
    set id | id in bets && bets[id].status == Pending :: bets[id]
  }

  /** The pending bets oldest first. */
  ghost function PendingList(bets: map<string, Bet>): seq<Bet> {
    Listing(PendingSet(bets))
  }

  /** One user's bets, all or of one status. */
  ghost function UserSet(bets: map<string, Bet>, user: string, status: Option<Status>): set<Bet> {
    set id | id in bets && bets[id].user == user && (status.Some? ==> bets[id].status == status.value) :: bets[id]
  }

  /** a is listed before b: it was created earlier, or at the same time under an id that comes first. */
  ghost predicate ListedFirst(a: Bet, b: Bet) {
    a.created < b.created || (a.created == b.created && exists k: nat :: DifferAt(a.id, b.id, k))
  }

  ghost predicate Holds(bets: map<string, Bet>, b: Bet) {
    exists id :: id in bets && bets[id] == b
  }

  predicate NoneTwice(s: seq<Bet>) {
    forall i, j | 0 <= i < j < |s| :: s[i] != s[j]
  }

  /** The sequence has exactly the store's pending bets, each once. */
  ghost predicate ListsPending(bets: map<string, Bet>, s: seq<Bet>) {
    NoneTwice(s) && forall b :: b in s <==> Holds(bets, b) && b.status == Pending
  }

  /** The sequence has exactly the user's bets, all or those of one status, each once. */
  ghost predicate ListsUsers(bets: map<string, Bet>, user: string, status: Option<Status>, s: seq<Bet>) {
    NoneTwice(s)
    && forall b :: b in s <==> Holds(bets, b) && b.user == user && (status == None || status == Some(b.status))
  }

  ghost predicate OldestFirst(s: seq<Bet>) {
    forall i, j | 0 <= i < j < |s| :: ListedFirst(s[i], s[j])
  }

  ghost predicate LatestFirst(s: seq<Bet>) {
    forall i, j | 0 <= i < j < |s| :: ListedFirst(s[j], s[i])
  }

  lemma ListingTells(bets: set<Bet>)
    requires BetOrder.Keyed(bets)
    ensures OldestFirst(Listing(bets))
    ensures NoneTwice(Listing(bets))
  {
    ListingFacts(bets);
    var s := Listing(bets);
    DistinctIdsOf(bets, s);
    forall i, j | 0 <= i < j < |s| ensures ListedFirst(s[i], s[j]) && s[i] != s[j] {
      TextOrderIsStrict(s[i].id, s[j].id);
      TextBeforeExactly(s[i].id, s[j].id);
    }
  }

  /** The pending bets, oldest first. */
  lemma PendingListTells(bets: map<string, Bet>)
    requires forall id | id in bets :: bets[id].id == id
    ensures ListsPending(bets, PendingList(bets)) && OldestFirst(PendingList(bets))
  {
    ListingTells(PendingSet(bets));
    forall b ensures b in PendingList(bets) <==> Holds(bets, b) && b.status == Pending {
      ListingMember(PendingSet(bets), b);
    }
  }

  /** A user's bets, all or of one status, newest first. */
  ghost function UserList(bets: map<string, Bet>, user: string, status: Option<Status>): seq<Bet> {
    Reverse(Listing(UserSet(bets, user, status)))
  }

  lemma ReverseTells(s: seq<Bet>)
    ensures OldestFirst(s) ==> LatestFirst(Reverse(s))
  {
  }

  lemma ReverseNoneTwice(s: seq<Bet>)
    requires NoneTwice(s)
    ensures NoneTwice(Reverse(s))
  {
  }

  lemma ReverseHas(s: seq<Bet>, b: Bet)
    ensures b in Reverse(s) <==> b in s
  {
    ReverseKeeps(s);
    assert b in multiset(s) <==> b in multiset(Reverse(s));
  }

  lemma UserListTells(bets: map<string, Bet>, user: string, status: Option<Status>)
    requires forall id | id in bets :: bets[id].id == id
    ensures ListsUsers(bets, user, status, UserList(bets, user, status)) && LatestFirst(UserList(bets, user, status))
  {
    var mine := UserSet(bets, user, status);
    ListingTells(mine);
    ReverseTells(Listing(mine));
    ReverseNoneTwice(Listing(mine));
    forall b ensures b in UserList(bets, user, status)
                <==> Holds(bets, b) && b.user == user && (status == None || status == Some(b.status))
    {
      ListingMember(mine, b);
      ReverseHas(Listing(mine), b);
      UserSetTells(bets, user, status, b);
    }
  }

  lemma UserSetTells(bets: map<string, Bet>, user: string, status: Option<Status>, b: Bet)
    ensures b in UserSet(bets, user, status)
       <==> Holds(bets, b) && b.user == user && (status == None || status == Some(b.status))
  {
  }

  lemma PageAscends(s: seq<Bet>, page: int, pageSize: int)
    ensures OldestFirst(s) ==> OldestFirst(Page(s, page, pageSize))
    ensures LatestFirst(s) ==> LatestFirst(Page(s, page, pageSize))
  {
    PageTells(s, page, pageSize);
  }

  class InMemoryStore {
    var bets: map<string, Bet>

    ghost predicate Valid()
      reads this
    {
      "" !in bets && forall id | id in bets :: bets[id].id == id
    }

    constructor ()
      ensures Valid() && bets == map[]
    {
      bets := map[];
    }

    /** `generated` is the id drawn when the bet carries none; it is never empty. */
    method CreateBet(b: Bet, generated: string) returns (r: Result<string, Error>)
      requires Valid() && generated != ""
      modifies this
      ensures Valid()
      ensures Taken(old(bets), b.user, b.reference) ==> r == Err(Conflict) && bets == old(bets)
      ensures !Taken(old(bets), b.user, b.reference) ==>
                var id := if b.id == "" then generated else b.id;
                r == Ok(id) && bets == old(bets)[id := b.(id := id)]
    {
      var rest := bets.Keys;
      while rest != {}
        invariant rest <= bets.Keys
        invariant forall k | k in bets && k !in rest :: !(bets[k].user == b.user && bets[k].reference == b.reference)
        decreases |rest|
      {
        var k :| k in rest;
        if bets[k].user == b.user && bets[k].reference == b.reference {
          return Err(Conflict);
        }
        rest := rest - {k};
      }
      var id := if b.id == "" then generated else b.id;
      bets := bets[id := b.(id := id)];
      r := Ok(id);
    }

    method GetBet(id: string) returns (r: Option<Bet>)
      ensures r == if id in bets then Some(bets[id]) else None
    {
      r := if id in bets then Some(bets[id]) else None;
    }

    method GetBetByReference(user: string, reference: string) returns (r: Option<Bet>)
      requires Valid()
      ensures r.None? <==> !Taken(bets, user, reference)
      ensures r.Some? ==>
                && r.value.id in bets && bets[r.value.id] == r.value
                && r.value.user == user && r.value.reference == reference
    {
      var rest := bets.Keys;
      while rest != {}
        invariant rest <= bets.Keys
        invariant forall k | k in bets && k !in rest :: !(bets[k].user == user && bets[k].reference == reference)
        decreases |rest|
      {
        var k :| k in rest;
        if bets[k].user == user && bets[k].reference == reference {
          return Some(bets[k]);
        }
        rest := rest - {k};
      }
      r := None;
    }

    method UpdateBetStatus(id: string, status: Status, settledAt: Option<int>) returns (r: Option<Error>)
      requires Valid()
      modifies this
      ensures Valid()
      ensures if id in old(bets)
              then r.None? && bets == old(bets)[id := old(bets)[id].(status := status,
                     settled := if settledAt.Some? then settledAt else old(bets)[id].settled)]
              else r == Some(NotFound) && bets == old(bets)
    {
      if id !in bets {
        return Some(NotFound);
      }
      var b := bets[id].(status := status);
      if settledAt.Some? {
        b := b.(settled := settledAt);
      }
      bets := bets[id := b];
      r := None;
    }

    method UpdateBetStatusAndDebitTx(id: string, status: Status, debitTx: nat, settledAt: Option<int>)
      returns (r: Option<Error>)
      requires Valid()
      modifies this
      ensures Valid()
      ensures if id in old(bets)
              then r.None? && bets == old(bets)[id := old(bets)[id].(status := status, debitTx := Some(debitTx),
                     settled := if settledAt.Some? then settledAt else old(bets)[id].settled)]
              else r == Some(NotFound) && bets == old(bets)
    {
      if id !in bets {
        return Some(NotFound);
      }
      var b := bets[id].(status := status, debitTx := Some(debitTx));
      if settledAt.Some? {
        b := b.(settled := settledAt);
      }
      bets := bets[id := b];
      r := None;
    }

    method SetCreditTransactionID(id: string, creditTx: nat) returns (r: Option<Error>)
      requires Valid()
      modifies this
      ensures Valid()
      ensures if id in old(bets)
              then r.None? && bets == old(bets)[id := old(bets)[id].(creditTx := Some(creditTx))]
              else r == Some(NotFound) && bets == old(bets)
    {
      if id !in bets {
        return Some(NotFound);
      }
      bets := bets[id := bets[id].(creditTx := Some(creditTx))];
      r := None;
    }

    /** Gathers bets in whatever order the map yields them. */
    method Gather(wanted: Bet -> bool) returns (out: seq<Bet>)
      requires Valid()
      ensures multiset(out) == multiset(set id | id in bets && wanted(bets[id]) :: bets[id])
    {
      out := [];
      var rest := bets.Keys;
      ghost var seen: set<Bet> := {};
      while rest != {}
        invariant rest <= bets.Keys
        invariant seen == set id | id in bets && id !in rest && wanted(bets[id]) :: bets[id]
        invariant multiset(out) == multiset(seen)
        decreases |rest|
      {
        var k :| k in rest;
        if wanted(bets[k]) {
          assert bets[k] !in seen;
          seen := seen + {bets[k]};
          out := out + [bets[k]];
        }
        rest := rest - {k};
      }
    }

    /** The requested page of the pending bets, oldest first. */
    method ListPendingBets(page: int, pageSize: int) returns (out: seq<Bet>)
      requires Valid()
      ensures out == Page(PendingList(bets), page, pageSize)
      ensures ListsPending(bets, PendingList(bets))
      ensures OldestFirst(out)
    {
      var wanted := (b: Bet) => b.status == Pending;
      var found := Gather(wanted);
      var a := new Bet[|found|](i requires 0 <= i < |found| => found[i]);
      assert a[..] == found;
      SortBetsByCreatedAsc(a);
      assert (set id | id in bets && wanted(bets[id]) :: bets[id]) == PendingSet(bets);
      ListingIs(PendingSet(bets), a[..]);
      out := Page(a[..], page, pageSize);
      PendingListTells(bets);
      PageAscends(PendingList(bets), page, pageSize);
    }

    /** The requested page of a user's bets, newest first. */
    method ListBets(user: string, status: Option<Status>, page: int, pageSize: int) returns (out: seq<Bet>)
      requires Valid()
      ensures out == Page(UserList(bets, user, status), page, pageSize)
      ensures ListsUsers(bets, user, status, UserList(bets, user, status))
      ensures LatestFirst(out)
    {
      var wanted := (b: Bet) => b.user == user && (status.Some? ==> b.status == status.value);
      var found := Gather(wanted);
      var a := new Bet[|found|](i requires 0 <= i < |found| => found[i]);
      assert a[..] == found;
      SortBetsByCreatedDesc(a);
      ghost var mine := UserSet(bets, user, status);
      assert (set id | id in bets && wanted(bets[id]) :: bets[id]) == mine;
      NewestFirst(mine, a[..]);
      out := Page(a[..], page, pageSize);
      UserListTells(bets, user, status);
      PageAscends(UserList(bets, user, status), page, pageSize);
    }
  }
}
