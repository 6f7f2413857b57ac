/** The userbot's table of fallback messages: each row remembers a substitute message sent to a
    contractor's private chat while the contractor was expected to join a group, so that the
    message can be deleted once the contractor joins. Rows are inserted unconditionally (there
    is no uniqueness constraint on the contractor/group pair), found by that pair and deleted by
    their autoincrement id. */
module FallbackStore {
  import opened Common

  datatype FallbackMessage = FallbackMessage(id: int, contractorId: int, groupId: int, messageId: int)

  predicate IsFor(row: FallbackMessage, contractorId: int, groupId: int) {
    row.contractorId == contractorId && row.groupId == groupId
  }

  /** The row a lookup by pair yields: the first matching row in insertion order. */
  function FirstFor(rows: seq<FallbackMessage>, contractorId: int, groupId: int): (r: Option<FallbackMessage>)
    ensures r.Some? ==> r.value in rows && IsFor(r.value, contractorId, groupId)
    ensures r.None? <==> forall i :: 0 <= i < |rows| ==> !IsFor(rows[i], contractorId, groupId)
  {
    if rows == [] then None
    else if IsFor(rows[0], contractorId, groupId) then Some(rows[0])
    else FirstFor(rows[1..], contractorId, groupId)
  }

  /** How many rows there are for a pair. */
  function CountFor(rows: seq<FallbackMessage>, contractorId: int, groupId: int): nat {
    if rows == [] then 0
    else (if IsFor(rows[0], contractorId, groupId) then 1 else 0) + CountFor(rows[1..], contractorId, groupId)
  }

  /** The table after `DELETE ... WHERE id = rowId`. */
  function WithoutId(rows: seq<FallbackMessage>, rowId: int): (r: seq<FallbackMessage>)
    ensures |r| <= |rows|
    ensures forall x :: x in r <==> x in rows && x.id != rowId
  {
    if rows == [] then []
    else if rows[0].id == rowId then WithoutId(rows[1..], rowId)
    else [rows[0]] + WithoutId(rows[1..], rowId)
  }

  predicate IdsIncreasing(rows: seq<FallbackMessage>) {
    forall i, j :: 0 <= i < j < |rows| ==> rows[i].id < rows[j].id
  }

  predicate IdsBelow(rows: seq<FallbackMessage>, bound: int) {
    forall i :: 0 <= i < |rows| ==> rows[i].id < bound
  }

  lemma {:induction false} CountForAppend(rows: seq<FallbackMessage>, row: FallbackMessage, contractorId: int, groupId: int)
    ensures CountFor(rows + [row], contractorId, groupId)
         == CountFor(rows, contractorId, groupId) + (if IsFor(row, contractorId, groupId) then 1 else 0)
    decreases |rows|
  {
    if rows != [] {
      assert (rows + [row])[1..] == rows[1..] + [row];
      CountForAppend(rows[1..], row, contractorId, groupId);
    }
  }

  /** Inserting a row never rejects an existing pair: it adds exactly one row for its pair and
      leaves the count of every other pair as it was. */
  lemma InsertCountsOnce(rows: seq<FallbackMessage>, row: FallbackMessage, contractorId: int, groupId: int)
    ensures IsFor(row, contractorId, groupId) ==>
      CountFor(rows + [row], contractorId, groupId) == CountFor(rows, contractorId, groupId) + 1
    ensures !IsFor(row, contractorId, groupId) ==>
      CountFor(rows + [row], contractorId, groupId) == CountFor(rows, contractorId, groupId)
  {
    CountForAppend(rows, row, contractorId, groupId);
  }

  /** The lookup finds a row for a pair exactly when the pair has a row. */
  lemma {:induction false} FirstForIffCount(rows: seq<FallbackMessage>, contractorId: int, groupId: int)
    ensures FirstFor(rows, contractorId, groupId).Some? <==> CountFor(rows, contractorId, groupId) > 0
    decreases |rows|
  {
    if rows != [] {
      FirstForIffCount(rows[1..], contractorId, groupId);
    }
  }

  /** Deleting an id keeps every other row, in the same order. */
  lemma {:induction false} WithoutAbsentId(rows: seq<FallbackMessage>, rowId: int)
    requires forall i :: 0 <= i < |rows| ==> rows[i].id != rowId
    ensures WithoutId(rows, rowId) == rows
    decreases |rows|
  {
    if rows != [] {
      WithoutAbsentId(rows[1..], rowId);
    }
  }

  /** Deleting twice is deleting once. */
  lemma DeleteIdempotent(rows: seq<FallbackMessage>, rowId: int)
    ensures WithoutId(WithoutId(rows, rowId), rowId) == WithoutId(rows, rowId)
  {
    var once := WithoutId(rows, rowId);
    forall i | 0 <= i < |once| ensures once[i].id != rowId {
      assert once[i] in once;
    }
    WithoutAbsentId(once, rowId);
  }

  lemma {:induction false} WithoutIdKeepsOrder(rows: seq<FallbackMessage>, rowId: int)
    requires IdsIncreasing(rows)
    ensures IdsIncreasing(WithoutId(rows, rowId))
    decreases |rows|
  {
    if rows != [] {
      WithoutIdKeepsOrder(rows[1..], rowId);
      var tail := WithoutId(rows[1..], rowId);
      forall k | 0 <= k < |tail| ensures rows[0].id < tail[k].id {
        assert tail[k] in rows[1..];
      }
    }
  }

  /** Deleting a row by id takes exactly one row off its pair's count when the id is present,
      and changes no count otherwise. */
  lemma {:induction false} DeleteCount(rows: seq<FallbackMessage>, row: FallbackMessage, contractorId: int, groupId: int)
    requires IdsIncreasing(rows) && row in rows
    ensures CountFor(WithoutId(rows, row.id), contractorId, groupId)
         == CountFor(rows, contractorId, groupId) - (if IsFor(row, contractorId, groupId) then 1 else 0)
    decreases |rows|
  {
    if rows[0] == row {
      forall i | 0 <= i < |rows[1..]| ensures rows[1..][i].id != row.id {
        assert rows[1..][i] == rows[i + 1];
      }
      WithoutAbsentId(rows[1..], row.id);
    } else {
      assert rows[0].id != row.id by {
        var k :| 0 <= k < |rows| && rows[k] == row;
        assert k != 0;
      }
      DeleteCount(rows[1..], row, contractorId, groupId);
    }
  }

  /** After a row for a pair is inserted, the lookup by that pair finds a row for it; when the
      pair had no row before, it finds the inserted row itself. */
  lemma {:induction false} LookupAfterInsert(rows: seq<FallbackMessage>, row: FallbackMessage)
    ensures var r := FirstFor(rows + [row], row.contractorId, row.groupId);
      r.Some? && IsFor(r.value, row.contractorId, row.groupId) &&
      (FirstFor(rows, row.contractorId, row.groupId).None? ==> r == Some(row)) &&
      (FirstFor(rows, row.contractorId, row.groupId).Some? ==> r == FirstFor(rows, row.contractorId, row.groupId))
    decreases |rows|
  {
    if rows != [] {
      assert (rows + [row])[1..] == rows[1..] + [row];
      LookupAfterInsert(rows[1..], row);
    }
  }

  /** The table of fallback messages, updated in place. */
  class Storage {
    var rows: seq<FallbackMessage>
    var nextId: int

    /** Ids are assigned by an increasing counter, so they are distinct and in insertion order. */
    ghost predicate Valid()
      reads this
    {
      nextId >= 1 && IdsIncreasing(rows) && IdsBelow(rows, nextId)
    }

    constructor ()
      ensures Valid() && rows == []
    {
      rows := [];
      nextId := 1;
    }

    /** `add_fallback_message`: always inserts one row, with a fresh id. */
    method Add(contractorId: int, groupId: int, messageId: int)
      requires Valid()
      modifies this
      ensures Valid()
      ensures rows == old(rows) + [FallbackMessage(old(nextId), contractorId, groupId, messageId)]
      ensures forall i :: 0 <= i < |old(rows)| ==> old(rows)[i].id != old(nextId)
    {
      rows := rows + [FallbackMessage(nextId, contractorId, groupId, messageId)];
      nextId := nextId + 1;
    }

    /** `get_fallback_message`: a read-only lookup by pair. */
    method Get(contractorId: int, groupId: int) returns (r: Option<FallbackMessage>)
      requires Valid()
      ensures r == FirstFor(rows, contractorId, groupId)
      ensures r.Some? ==> r.value in rows && IsFor(r.value, contractorId, groupId)
      ensures r.None? <==> forall i :: 0 <= i < |rows| ==> !IsFor(rows[i], contractorId, groupId)
    {
      r := FirstFor(rows, contractorId, groupId);
    }

    /** `delete_fallback_message`: removes the row with that id; an absent id is not an error. */
    method Delete(rowId: int)
      requires Valid()
      modifies this
      ensures Valid()
      ensures rows == WithoutId(old(rows), rowId) && nextId == old(nextId)
    {
      WithoutIdKeepsOrder(rows, rowId);
      rows := WithoutId(rows, rowId);
    }
  }
}
