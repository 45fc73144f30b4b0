/** The earlier revision of the item page, kept beside the live one: the same
    lookups, but only four related items, a fetch guarded by both slugs, and the
    page revealed whatever the outcome. */
module ItemPageBackup {
  import opened Wrappers
  import opened Catalog
  import opened Gateway
  import opened Rating
  import opened Resolve

  /** At most this many related items are shown. */
  const RelatedCap: nat := 4

  /** The page's state (`useState` hooks). */
  class BackupItemPageView {
    var item: Option<Item>
    var category: Option<Category>
    var relatedItems: seq<Item>
    var loading: bool
    var error: Option<string>
    var isLoaded: bool

    constructor ()
      ensures item == None && category == None && relatedItems == []
      ensures loading && error == None && !isLoaded
    {
      item := None;
      category := None;
      relatedItems := [];
      loading := true;
      error := None;
      isLoaded := false;
    }

    /** `fetchItemData`, run only when both route slugs are non-empty. The result
        is the category id the items request was made for, if it was made. */
    method FetchItemData(categorySlug: string, itemSlug: string,
                         categoriesResponse: Envelope<seq<Category>>,
                         itemsResponse: Envelope<seq<Item>>)
      returns (itemsRequestedFor: Option<string>)
      modifies this
      ensures categorySlug == "" || itemSlug == "" ==> itemsRequestedFor == None && unchanged(this)
      ensures categorySlug != "" && itemSlug != "" ==> !loading && isLoaded
      ensures categorySlug != "" && itemSlug != "" ==>
              var found := LookupCategory(categorySlug, categoriesResponse);
              && itemsRequestedFor == (if found.Found? then Some(found.value.id) else None)
              && (found.Failed? ==> error == Some(found.message))
              && (found.NotFound? ==> error == Some("Category not found"))
              && (!found.Found? ==> category == old(category))
              && (found.Found? ==> category == Some(found.value))
      ensures categorySlug != "" && itemSlug != "" ==>
              var found := LookupCategory(categorySlug, categoriesResponse);
              var hit := LookupItem(itemSlug, itemsResponse);
              && (found.Found? && hit.Failed? ==> error == Some(hit.message))
              && (found.Found? && hit.NotFound? ==> error == Some("Item not found"))
              && (found.Found? && hit.Found? ==>
                    && error == None && item == Some(hit.value)
                    && relatedItems == Related(itemsResponse.data.field.value, hit.value, RelatedCap))
              && (!(found.Found? && hit.Found?) ==>
                    item == old(item) && relatedItems == old(relatedItems))
    {
      itemsRequestedFor := None;
      if categorySlug == "" || itemSlug == "" {
        return;
      }
      loading := true;
      error := None;
      var thrown: Option<string> := None;
      match LookupCategory(categorySlug, categoriesResponse) {
        case Failed(message) =>
          thrown := Some(message);
        case NotFound =>
          error := Some("Category not found");
        case Found(c) =>
          category := Some(c);
          itemsRequestedFor := Some(c.id);
          match LookupItem(itemSlug, itemsResponse) {
            case Failed(message) =>
              thrown := Some(message);
            case NotFound =>
              error := Some("Item not found");
            case Found(x) =>
              item := Some(x);
              relatedItems := Related(itemsResponse.data.field.value, x, RelatedCap);
          }
      }
      if thrown.Some? {
        error := Some(Or(thrown.value, "Failed to load item"));
      }
      loading := false;
      isLoaded := true;
    }

    /** The inline average badge, shown only when the item has sub-scores. */
    function AverageBadge(): (r: Option<real>)
      reads this
      requires item.Some?
      ensures r.Some? <==> item.value.ratings.Some?
      ensures r.Some? ==> r.value == AverageRating(item.value.ratings)
    {
      BackupAverage(item.value)
    }
  }
}
