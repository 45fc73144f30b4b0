/** The public item page: resolves the category slug, then the item slug within
    that category's items, and picks up to eight related items. */
module ItemPage {
  import opened Wrappers
  import opened Catalog
  import opened Gateway
  import opened Rating
  import opened Resolve

  /** At most this many related items are shown. */
  const RelatedCap: nat := 8

  /** The page's state (`useState` hooks). */
  class ItemPageView {
    var item: Option<Item>
    var category: Option<Category>
    var relatedItems: seq<Item>
    var loading: bool
    var error: Option<string>
    var isLoaded: bool

    constructor ()
      ensures item == None && category == None && relatedItems == []
      ensures loading && error == None && !isLoaded
    {
      item := None;
      category := None;
      relatedItems := [];
      loading := true;
      error := None;
      isLoaded := false;
    }

    /** `fetchItemData`: categories, then the items of the found category. The
        result is the category id the items request was made for, if it was made.
        The page reveals itself (`isLoaded`) only when the item was found. */
    method FetchItemData(categorySlug: string, itemSlug: string,
                         categoriesResponse: Envelope<seq<Category>>,
                         itemsResponse: Envelope<seq<Item>>)
      returns (itemsRequestedFor: Option<string>)
      modifies this
      ensures !loading
      ensures var found := LookupCategory(categorySlug, categoriesResponse);
              && itemsRequestedFor == (if found.Found? then Some(found.value.id) else None)
              && (found.Failed? ==> error == Some(found.message))
              && (found.NotFound? ==> error == Some("Category not found"))
              && (!found.Found? ==> category == old(category))
              && (found.Found? ==> category == Some(found.value))
      ensures var found := LookupCategory(categorySlug, categoriesResponse);
              var hit := LookupItem(itemSlug, itemsResponse);
              && (found.Found? && hit.Failed? ==> error == Some(hit.message))
              && (found.Found? && hit.NotFound? ==> error == Some("Item not found"))
              && (found.Found? && hit.Found? ==>
                    && error == None && item == Some(hit.value) && isLoaded
                    && relatedItems == Related(itemsResponse.data.field.value, hit.value, RelatedCap))
              && (!(found.Found? && hit.Found?) ==>
                    item == old(item) && relatedItems == old(relatedItems) && isLoaded == old(isLoaded))
    {
      loading := true;
      error := None;
      itemsRequestedFor := None;
      var thrown: Option<string> := None;
      match LookupCategory(categorySlug, categoriesResponse) {
        case Failed(message) =>
          thrown := Some(message);
        case NotFound =>
          error := Some("Category not found");
        case Found(c) =>
          category := Some(c);
          itemsRequestedFor := Some(c.id);
          thrown := ShowItem(itemSlug, itemsResponse);
      }
      if thrown.Some? {
        error := Some(Or(thrown.value, "Failed to load item"));
      }
      loading := false;
    }

    /** The second half of `fetchItemData`, once the category is found: look the
        item up and show it with its related items. A throw is handed back. */
    method ShowItem(itemSlug: string, itemsResponse: Envelope<seq<Item>>) returns (thrown: Option<string>)
      modifies this`error, this`item, this`relatedItems, this`isLoaded
      ensures var hit := LookupItem(itemSlug, itemsResponse);
              && (hit.Failed? ==> thrown == Some(hit.message) && error == old(error))
              && (hit.NotFound? ==> thrown == None && error == Some("Item not found"))
              && (hit.Found? ==> thrown == None && error == old(error) && item == Some(hit.value) && isLoaded
                                 && relatedItems == Related(itemsResponse.data.field.value, hit.value, RelatedCap))
              && (!hit.Found? ==> item == old(item) && relatedItems == old(relatedItems) && isLoaded == old(isLoaded))
    {
      thrown := None;
      match LookupItem(itemSlug, itemsResponse) {
        case Failed(message) =>
          thrown := Some(message);
        case NotFound =>
          error := Some("Item not found");
        case Found(x) =>
          item := Some(x);
          relatedItems := Related(itemsResponse.data.field.value, x, RelatedCap);
          isLoaded := true;
      }
    }
  }
}
