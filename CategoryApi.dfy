/**
 * The category controller: list, get, create, update and delete over the category table.
 * Only the category table is touched; products referring to a category are neither
 * checked nor changed when it is updated or deleted.
 */
module CategoryApi {
  import opened Models
  import opened EntityStore

  class CategoryApiController {
    const categories: Table<Category>

    ghost predicate Valid()
      reads this, categories
    {
      categories.Valid() && categories.idOf == CategoryKey && categories.stamp == WithCategoryId
    }

    constructor (categories: Table<Category>)
      ensures this.categories == categories
    {
      this.categories := categories;
    }

    /** 200 with the whole category table, unchanged. */
    method GetCategories() returns (res: Response<map<int, Category>>)
      ensures res.Ok? && res.body == categories.rows
    {
      return Ok(categories.rows);
    }

    /** 404 exactly when the id is absent; otherwise 200 with that category. */
    method GetCategory(id: int) returns (res: Response<Category>)
      requires Valid()
      ensures res.NotFound? <==> id !in categories.rows
      ensures id in categories.rows ==> res == Ok(categories.rows[id])
      ensures res.Ok? ==> res.body.id == id
    {
      var category := categories.GetById(id);
      if category.None? {
        return NotFound("");
      }
      return Ok(category.value);
    }

    /** Always inserts exactly one category under a fresh id; 201 carries it. */
    method PostCategory(category: Category) returns (res: Response<Category>)
      requires Valid()
      modifies categories
      ensures Valid()
      ensures res.Created? && res.id == old(categories.nextId) && res.id !in old(categories.rows)
      ensures categories.nextId == old(categories.nextId) + 1
      ensures res.body == category.(id := res.id)
      ensures categories.rows == old(categories.rows)[res.id := res.body]
    {
      var id, created := categories.Add(category);
      return Created(id, created);
    }

    /**
     * 404 with no change when the path id is absent. Otherwise the body is written under
     * the body's own id, which is never compared with the path id, and 204 comes back.
     * An update whose body id names no row changes nothing.
     */
    method PutCategory(id: int, category: Category) returns (res: Response<Category>)
      requires Valid()
      modifies categories
      ensures Valid()
      ensures res == if id in old(categories.rows) then NoContent else NotFound("")
      ensures res.NotFound? ==> categories.rows == old(categories.rows)
      ensures categories.nextId == old(categories.nextId)
      ensures res.NoContent? ==>
                categories.rows == if category.id in old(categories.rows)
                                   then old(categories.rows)[category.id := category]
                                   else old(categories.rows)
      ensures res.NoContent? && category.id != id ==> categories.rows[id] == old(categories.rows)[id]
    {
      var existing := categories.GetById(id);
      if existing.None? {
        return NotFound("");
      }
      var _ := categories.Update(category);
      return NoContent;
    }

    /** 404 with no change when the category is absent; otherwise it is removed (204). */
    method DeleteCategory(id: int) returns (res: Response<Category>)
      requires Valid()
      modifies categories
      ensures Valid()
      ensures res == if id in old(categories.rows) then NoContent else NotFound("")
      ensures categories.rows == old(categories.rows) - {id}
      ensures categories.nextId == old(categories.nextId)
    {
      var category := categories.GetById(id);
      if category.None? {
        return NotFound("");
      }
      var _ := categories.Delete(id);
      return NoContent;
    }
  }
}
