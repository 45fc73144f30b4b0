/** Slug resolution as the public pages perform it on a gateway response:
    fetch failure, a malformed payload, a miss, or the first exact match. */
module Resolve {
  import opened Wrappers
  import opened Catalog
  import opened Gateway

  /** The outcome of one lookup step; `Failed` carries the message of the error
      the page throws (and then catches) at that step. */
  datatype Lookup<T> = Failed(message: string) | NotFound | Found(value: T)

  /** `getCategories()` then `data.categories.find((cat) => cat.slug === slug)`;
      `success: false` is thrown as "Failed to fetch categories". */
  function LookupCategory(slug: string, resp: Envelope<seq<Category>>): (r: Lookup<Category>)
    ensures !resp.success ==> r == Failed("Failed to fetch categories")
    ensures r.Failed? ==> r.message in {"Failed to fetch categories", TypeErrorText}
    ensures r.Failed? ==> r.message != ""
    ensures r.NotFound? <==> resp.success && Required(resp.data).Value?
                             && forall c :: c in Required(resp.data).value ==> c.slug != slug
    ensures r.Found? ==> resp.success && Required(resp.data).Value?
                         && r.value == CategoryBySlug(Required(resp.data).value, slug).value
  {
    if !resp.success then Failed("Failed to fetch categories")
    else match Required(resp.data)
      case TypeError => Failed(TypeErrorText)
      case Value(cats) =>
        match CategoryBySlug(cats, slug)
        case None => NotFound
        case Some(c) => Found(c)
  }

  /** `getItemsByCategory(id)` then `data.items.find((item) => item.slug === slug)`
      on the item pages; `success: false` is thrown as "Failed to fetch items". */
  function LookupItem(slug: string, resp: Envelope<seq<Item>>): (r: Lookup<Item>)
    ensures !resp.success ==> r == Failed("Failed to fetch items")
    ensures r.Failed? ==> r.message in {"Failed to fetch items", TypeErrorText}
    ensures r.Failed? ==> r.message != ""
    ensures r.NotFound? <==> resp.success && Required(resp.data).Value?
                             && forall x :: x in Required(resp.data).value ==> x.slug != slug
    ensures r.Found? ==> resp.success && Required(resp.data).Value?
                         && r.value == ItemBySlug(Required(resp.data).value, slug).value
  {
    if !resp.success then Failed("Failed to fetch items")
    else match Required(resp.data)
      case TypeError => Failed(TypeErrorText)
      case Value(items) =>
        match ItemBySlug(items, slug)
        case None => NotFound
        case Some(x) => Found(x)
  }
}
