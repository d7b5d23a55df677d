/**
 * The product, category and brand tables. Their repositories are thin facades over the
 * relational store; here each is one table keyed by a store-assigned identity.
 */
module EntityStore {
  import opened Models

  /**
   * A table of rows keyed by id. `idOf` reads the key an entity carries and `stamp` writes
   * one into it, as the store does to the tracked object on save. `nextId` is the identity
   * counter: every key in use is below it, so the key it hands out on insert is always
   * fresh, and it never moves back, so a deleted key is never handed out again.
   */
  class Table<T(!new)> {
    var rows: map<int, T>
    var nextId: int
    const idOf: T -> int
    const stamp: (T, int) -> T

    ghost predicate Valid()
      reads this
    {
      && (forall k :: k in rows ==> k < nextId && idOf(rows[k]) == k)
      && (forall e, k :: idOf(stamp(e, k)) == k)
    }

    constructor (idOf: T -> int, stamp: (T, int) -> T)
      requires forall e, k :: idOf(stamp(e, k)) == k
      ensures Valid() && rows == map[] && nextId == 1
      ensures this.idOf == idOf && this.stamp == stamp
    {
      rows := map[];
      nextId := 1;
      this.idOf := idOf;
      this.stamp := stamp;
    }

    /** Primary-key lookup; an absent id is not an error, and a found row carries the id. */
    function GetById(id: int): (r: Option<T>)
      reads this
      ensures r.Some? <==> id in rows
      ensures r.Some? ==> r.value == rows[id]
      ensures Valid() && r.Some? ==> idOf(r.value) == id
    {
      if id in rows then Some(rows[id]) else None
    }

    /** Inserts `e` under the next identity and returns the entity stamped with it. */
    method Add(e: T) returns (id: int, created: T)
      requires Valid()
      modifies this
      ensures Valid()
      ensures id == old(nextId) && nextId == id + 1
      ensures id !in old(rows) && created == stamp(e, id) && idOf(created) == id
      ensures rows == old(rows)[id := created]
    {
      id := nextId;
      created := stamp(e, id);
      rows := rows[id := created];
      nextId := nextId + 1;
    }

    /**
     * Replaces the row under the key `e` carries; on an absent key nothing changes and
     * false is returned. The counter never moves.
     */
    method Update(e: T) returns (found: bool)
      requires Valid()
      modifies this
      ensures Valid()
      ensures found == (idOf(e) in old(rows))
      ensures rows == if found then old(rows)[idOf(e) := e] else old(rows)
      ensures nextId == old(nextId)
    {
      found := idOf(e) in rows;
      if found {
        rows := rows[idOf(e) := e];
      }
    }

    /** Removes the row under `id`; returns whether there was one. The counter never moves. */
    method Delete(id: int) returns (removed: bool)
      requires Valid()
      modifies this
      ensures Valid()
      ensures removed == (id in old(rows))
      ensures rows == old(rows) - {id}
      ensures nextId == old(nextId)
    {
      removed := id in rows;
      rows := rows - {id};
    }
  }
}
