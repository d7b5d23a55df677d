/**
 * The product image table and its repository: filter by product, point lookup, insert,
 * and delete-returning-bool. Rows are kept in store order, which is ascending id order
 * because the store hands out increasing identities and inserts append.
 */
module ImageRepository {
  import opened Models

  /** The elements of `s` that satisfy `keep`, in their original order. */
  function Filter<T(!new)>(s: seq<T>, keep: T -> bool): (r: seq<T>)
    ensures |r| <= |s|
    ensures forall x :: x in r <==> x in s && keep(x)
  {
    if s == [] then []
    else (if keep(s[0]) then [s[0]] else []) + Filter(s[1..], keep)
  }

  /**
   * Row ids strictly increase along the table. Stated between neighbours, so that it
   * unfolds one step at a time; `AscendingIdsBelow` gives the pairwise form.
   */
  ghost predicate IdsAscending(rows: seq<ProductImage>)
  {
    |rows| < 2 || (rows[0].id < rows[1].id && IdsAscending(rows[1..]))
  }

  /** Any earlier row of an ascending table has a smaller id than any later one. */
  lemma {:induction false} AscendingIdsBelow(rows: seq<ProductImage>, i: int, j: int)
    requires IdsAscending(rows) && 0 <= i < j < |rows|
    ensures rows[i].id < rows[j].id
  {
    if i + 1 < j {
      AscendingIdsBelow(rows[1..], if i == 0 then 0 else i - 1, j - 1);
      if i > 0 {
        assert rows[1..][i - 1] == rows[i];
      } else {
        AscendingIdsBelow(rows, 0, 1);
      }
    } else if i > 0 {
      AscendingIdsBelow(rows[1..], i - 1, j - 1);
    }
  }

  /** Every row of a non-empty ascending table has an id at most that of the last row. */
  lemma AscendingIdsAtMostLast(rows: seq<ProductImage>)
    requires IdsAscending(rows) && rows != []
    ensures forall x :: x in rows ==> x.id <= rows[|rows| - 1].id
  {
    forall x | x in rows ensures x.id <= rows[|rows| - 1].id {
      var i :| 0 <= i < |rows| && rows[i] == x;
      if i < |rows| - 1 {
        AscendingIdsBelow(rows, i, |rows| - 1);
      }
    }
  }

  /** A row with an id above the last one can be appended to an ascending table. */
  lemma {:induction false} AppendIdsAscending(rows: seq<ProductImage>, x: ProductImage)
    requires IdsAscending(rows)
    requires rows == [] || rows[|rows| - 1].id < x.id
    ensures IdsAscending(rows + [x])
  {
    if rows != [] {
      assert (rows + [x])[1..] == rows[1..] + [x];
      AppendIdsAscending(rows[1..], x);
    }
  }

  /** Filtering a table keeps its ids ascending. */
  lemma {:induction false} FilterKeepsIdsAscending(rows: seq<ProductImage>, keep: ProductImage -> bool)
    requires IdsAscending(rows)
    ensures IdsAscending(Filter(rows, keep))
  {
    if rows != [] {
      var tail := rows[1..];
      FilterKeepsIdsAscending(tail, keep);
      var rest := Filter(tail, keep);
      if keep(rows[0]) {
        var r := [rows[0]] + rest;
        assert r == Filter(rows, keep);
        assert r[1..] == rest;
        if rest != [] {
          assert rest[0] in tail;
          var j :| 0 <= j < |tail| && tail[j] == rest[0];
          AscendingIdsBelow(rows, 0, j + 1);
        }
      } else {
        assert Filter(rows, keep) == rest;
      }
    }
  }

  /** The first row with id `id`, if any. */
  function FindById(rows: seq<ProductImage>, id: int): (r: Option<ProductImage>)
    ensures r.Some? ==> r.value in rows && r.value.id == id
    ensures r.None? <==> forall x :: x in rows ==> x.id != id
  {
    if rows == [] then None
    else if rows[0].id == id then Some(rows[0])
    else FindById(rows[1..], id)
  }

  /** In an ascending table, looking a row up by its id gives back that row. */
  lemma FindByIdFindsRow(rows: seq<ProductImage>, x: ProductImage)
    requires IdsAscending(rows) && x in rows
    ensures FindById(rows, x.id) == Some(x)
  {
    var found := FindById(rows, x.id);
    var i :| 0 <= i < |rows| && rows[i] == found.value;
    var j :| 0 <= j < |rows| && rows[j] == x;
    if i < j {
      AscendingIdsBelow(rows, i, j);
    } else if j < i {
      AscendingIdsBelow(rows, j, i);
    }
  }

  /**
   * The image repository. `images` holds the rows in store order and `nextId` is the
   * identity the store assigns to the next inserted row.
   */
  class ProductImageRepository {
    var images: seq<ProductImage>
    var nextId: int

    ghost predicate Valid()
      reads this
    {
      && IdsAscending(images)
      && (images == [] || images[|images| - 1].id < nextId)
    }

    /** Every stored id is below the identity counter. */
    lemma IdsBelowNext()
      requires Valid()
      ensures forall x :: x in images ==> x.id < nextId
    {
      if images != [] {
        AscendingIdsAtMostLast(images);
      }
    }

    constructor ()
      ensures Valid() && images == [] && nextId == 1
    {
      images := [];
      nextId := 1;
    }

    /**
     * The images of one product: exactly the rows whose product id matches, in store
     * order; empty when there are none.
     */
    function GetByProductId(productId: int): (r: seq<ProductImage>)
      requires Valid()
      reads this
      ensures forall x :: x in r <==> x in images && x.productId == productId
      ensures IdsAscending(r)
    {
      FilterKeepsIdsAscending(images, (x: ProductImage) => x.productId == productId);
      Filter(images, (x: ProductImage) => x.productId == productId)
    }

    /** The image with that id, or None; a lookup changes nothing. */
    function GetById(id: int): (r: Option<ProductImage>)
      reads this
      ensures r.Some? ==> r.value in images && r.value.id == id
      ensures r.None? <==> forall x :: x in images ==> x.id != id
    {
      FindById(images, id)
    }

    /**
     * Inserts `img`; the store assigns the next identity and the same row, now carrying
     * that id, is returned. Every earlier row stays, and a lookup by the new id finds it.
     */
    method Add(img: ProductImage) returns (added: ProductImage)
      requires Valid()
      modifies this
      ensures Valid()
      ensures added == img.(id := old(nextId)) && old(GetById(added.id)).None?
      ensures images == old(images) + [added]
      ensures nextId == old(nextId) + 1
      ensures GetById(added.id) == Some(added)
    {
      IdsBelowNext();
      added := img.(id := nextId);
      AppendIdsAscending(images, added);
      images := images + [added];
      nextId := nextId + 1;
      FindByIdFindsRow(images, added);
    }

    /**
     * Removes the row with id `id` and returns true, or returns false and changes nothing
     * when there is no such row. All other rows stay, in order.
     */
    method Delete(id: int) returns (removed: bool)
      requires Valid()
      modifies this
      ensures Valid() && nextId == old(nextId)
      ensures removed == old(GetById(id)).Some?
      ensures !removed ==> images == old(images)
      ensures images == Filter(old(images), (x: ProductImage) => x.id != id)
      ensures forall x :: x in images <==> x in old(images) && x.id != id
      ensures GetById(id).None?
    {
      var found := GetById(id);
      if found.None? {
        FilterKeepsAll(images, (x: ProductImage) => x.id != id);
        return false;
      }
      IdsBelowNext();
      FilterKeepsIdsAscending(images, (x: ProductImage) => x.id != id);
      images := Filter(images, (x: ProductImage) => x.id != id);
      assert images != [] ==> images[|images| - 1] in old(images);
      return true;
    }
  }

  /** A filter that rejects nothing returns its input. */
  lemma {:induction false} FilterKeepsAll<T(!new)>(s: seq<T>, keep: T -> bool)
    requires forall x :: x in s ==> keep(x)
    ensures Filter(s, keep) == s
  {
    if s != [] {
      FilterKeepsAll(s[1..], keep);
      assert [s[0]] + s[1..] == s;
    }
  }
}
