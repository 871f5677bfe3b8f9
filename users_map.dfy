/**
  The shared name registry: a map from client id to display name that every
  connection of the server updates in place.
*/
module UsersMap {

  /**
    `names` lists the values of `m`, one per key, in the key order `ids`:
    `ids` holds every key of `m` exactly once and `names[i]` is the name of `ids[i]`.
    Any order of the keys is allowed, as for the values of a hash map.
  */
  ghost predicate ListsValues(m: map<string, string>, ids: seq<string>, names: seq<string>) {
    && |ids| == |names|
    && (forall i | 0 <= i < |ids| :: ids[i] in m && names[i] == m[ids[i]])
    && (forall i, j | 0 <= i < j < |ids| :: ids[i] != ids[j])
    && (forall k | k in m :: k in ids)
  }

  /** The name under which `clientId` speaks: its registered name, or the id itself. */
  function SenderName(users: map<string, string>, clientId: string): string {
    if clientId in users then users[clientId] else clientId
  }

  /** Values and entries other than `clientId`'s agree between `before` and `after`. */
  ghost predicate OthersUnchanged(before: map<string, string>, after: map<string, string>, clientId: string) {
    forall k | k != clientId :: (k in after <==> k in before) && (k in after ==> after[k] == before[k])
  }

  class Registry {
    var users: map<string, string>

    /** A registry with nobody registered. */
    constructor ()
      ensures users == map[]
    {
      users := map[];
    }

    /** Insert-or-overwrite the name of `clientId`. */
    method Insert(clientId: string, name: string)
      modifies this
      ensures users == old(users)[clientId := name]
    {
      users := users[clientId := name];
    }

    /**
      A snapshot of all registered names, one per registered client (duplicates
      kept), in an order this model leaves open; `ids` is the key order used.
    */
    method Values() returns (names: seq<string>, ghost ids: seq<string>)
      ensures ListsValues(users, ids, names)
      ensures |names| == |users|
      ensures forall k | k in users :: users[k] in names
      ensures forall i | 0 <= i < |names| :: names[i] in users.Values
    {
      var pending := users.Keys;
      names, ids := [], [];
      while pending != {}
        invariant pending <= users.Keys
        invariant |ids| == |names|
        invariant forall i | 0 <= i < |ids| :: ids[i] in users && ids[i] !in pending && names[i] == users[ids[i]]
        invariant forall i, j | 0 <= i < j < |ids| :: ids[i] != ids[j]
        invariant forall k | k in users :: k in pending || k in ids
        decreases pending
      {
        var k :| k in pending;
        names, ids := names + [users[k]], ids + [k];
        pending := pending - {k};
      }
      ListsValuesSize(users, ids, names);
      forall k | k in users ensures users[k] in names {
        SnapshotHasName(users, ids, names, k);
      }
    }
  }

  /** Dropping the entry at position `j` of a listing gives a listing of the map without that key. */
  lemma ListsValuesRemove(m: map<string, string>, ids: seq<string>, names: seq<string>, j: nat)
    requires ListsValues(m, ids, names)
    requires j < |ids|
    ensures ListsValues(m - {ids[j]}, ids[..j] + ids[j + 1..], names[..j] + names[j + 1..])
  {
    var ids', names' := ids[..j] + ids[j + 1..], names[..j] + names[j + 1..];
    assert forall i | 0 <= i < |ids'| :: ids'[i] == ids[Skip(i, j)] && names'[i] == names[Skip(i, j)];
    ListsValuesReindex(m, ids, names, j, ids', names');
  }

  /** Dropping position `j` removes one occurrence of `names[j]`. */
  lemma MultisetRemove(names: seq<string>, j: nat)
    requires j < |names|
    ensures multiset(names) == multiset(names[..j] + names[j + 1..]) + multiset{names[j]}
  {
    assert names == names[..j] + [names[j]] + names[j + 1..];
  }

  /** The listing step of `ListsValuesRemove`, stated over the shifted positions. */
  lemma ListsValuesReindex(m: map<string, string>, ids: seq<string>, names: seq<string>, j: nat,
                           ids': seq<string>, names': seq<string>)
    requires ListsValues(m, ids, names)
    requires j < |ids|
    requires |ids'| == |names'| == |ids| - 1
    requires forall i | 0 <= i < |ids'| :: ids'[i] == ids[Skip(i, j)] && names'[i] == names[Skip(i, j)]
    ensures ListsValues(m - {ids[j]}, ids', names')
  {
    var m' := m - {ids[j]};
    forall i | 0 <= i < |ids'| ensures ids'[i] in m' && names'[i] == m'[ids'[i]] {
      assert Skip(i, j) != j;
    }
    forall a, b | 0 <= a < b < |ids'| ensures ids'[a] != ids'[b] {
      assert Skip(a, j) < Skip(b, j);
    }
    ReindexCovers(m, ids, j, ids');
  }

  /** Every key but `ids[j]` keeps a position once position `j` is dropped. */
  lemma ReindexCovers(m: map<string, string>, ids: seq<string>, j: nat, ids': seq<string>)
    requires forall k | k in m :: k in ids
    requires j < |ids|
    requires |ids'| == |ids| - 1
    requires forall i | 0 <= i < |ids'| :: ids'[i] == ids[Skip(i, j)]
    ensures forall k | k in m - {ids[j]} :: k in ids'
  {
    forall x | x in m - {ids[j]} ensures x in ids' {
      var i :| 0 <= i < |ids| && ids[i] == x;
      if i < j {
        assert ids'[i] == x;
      } else {
        assert ids'[i - 1] == x;
      }
    }
  }

  /** Position `i` of a sequence with position `j` dropped is position `Skip(i, j)` of the original. */
  function Skip(i: nat, j: nat): nat {
    if i < j then i else i + 1
  }

  /** A snapshot has exactly one entry per registered client. */
  lemma {:induction false} ListsValuesSize(m: map<string, string>, ids: seq<string>, names: seq<string>)
    requires ListsValues(m, ids, names)
    ensures |names| == |m|
  {
    if |ids| == 0 {
    } else {
      ListsValuesRemove(m, ids, names, 0);
      ListsValuesSize(m - {ids[0]}, ids[1..], names[1..]);
    }
  }

  /** Two snapshots of the same registry hold the same names with the same multiplicities. */
  lemma {:induction false} SnapshotsAgree(m: map<string, string>,
                                          ids1: seq<string>, names1: seq<string>,
                                          ids2: seq<string>, names2: seq<string>)
    requires ListsValues(m, ids1, names1)
    requires ListsValues(m, ids2, names2)
    ensures multiset(names1) == multiset(names2)
  {
    if |ids1| == 0 {
      ListsValuesSize(m, ids1, names1);
      ListsValuesSize(m, ids2, names2);
    } else {
      var k := ids1[0];
      assert k in m;
      var j :| 0 <= j < |ids2| && ids2[j] == k;
      ListsValuesRemove(m, ids1, names1, 0);
      ListsValuesRemove(m, ids2, names2, j);
      MultisetRemove(names1, 0);
      MultisetRemove(names2, j);
      SnapshotsAgree(m - {k}, ids1[1..], names1[1..], ids2[..j] + ids2[j + 1..], names2[..j] + names2[j + 1..]);
    }
  }

  /** Every registered name appears in a snapshot. */
  lemma SnapshotHasName(m: map<string, string>, ids: seq<string>, names: seq<string>, clientId: string)
    requires ListsValues(m, ids, names)
    requires clientId in m
    ensures m[clientId] in names
  {
    var i :| 0 <= i < |ids| && ids[i] == clientId;
    assert names[i] == m[clientId];
  }

  /** After registering, a client speaks under the name it registered. */
  lemma SenderNameAfterInsert(m: map<string, string>, clientId: string, name: string)
    ensures SenderName(m[clientId := name], clientId) == name
  {
  }

  /** A client that never registered speaks under its own id. */
  lemma SenderNameUnregistered(m: map<string, string>, clientId: string)
    requires clientId !in m
    ensures SenderName(m, clientId) == clientId
  {
  }

  /** Registering one client does not change the name another client speaks under. */
  lemma SenderNameOtherInsert(m: map<string, string>, clientId: string, other: string, name: string)
    requires other != clientId
    ensures SenderName(m[other := name], clientId) == SenderName(m, clientId)
  {
  }
}
