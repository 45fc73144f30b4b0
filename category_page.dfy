/** The public category page: resolves the route's category slug, loads that
    category's items, and narrows them with the exact-star rating filter. */
module CategoryPage {
  import opened Wrappers
  import opened Seqs
  import opened Catalog
  import opened Gateway
  import opened Rating
  import opened Resolve
  import Text
  import Icons

  /** The rating filter's state: the star value and whether it is switched on. */
  datatype RatingFilter = RatingFilter(value: int, enabled: bool)

  /** An item passes the filter at `v` when it has a displayed rating that rounds to `v`. */
  predicate RatesAt(v: int, it: Item)
  {
    match DisplayedRating(Some(it))
    case None => false
    case Some(r) => Round(r) == v
  }

  /** The list the rating-filter effect stores in `filteredItems`. */
  function RatingFiltered(items: seq<Item>, f: RatingFilter): (r: seq<Item>)
    ensures !f.enabled ==> r == items
    ensures f.enabled ==> forall x :: x in r <==> (x in items && DisplayedRating(Some(x)).Some?
                                                   && Round(DisplayedRating(Some(x)).value) == f.value)
    ensures |r| <= |items|
  {
    if !f.enabled then items
    else
      FilterMembership(items, (it: Item) => RatesAt(f.value, it));
      Filter(items, (it: Item) => RatesAt(f.value, it))
  }

  /** The filtered list keeps the fetched order. */
  lemma RatingFilteredInOrder(items: seq<Item>, f: RatingFilter)
    ensures SubsequenceOf(RatingFiltered(items, f), items)
  {
    if f.enabled {
      FilterIsSubsequence(items, (it: Item) => RatesAt(f.value, it));
    } else {
      SubsequenceOfSelf(items);
    }
  }

  lemma {:induction false} SubsequenceOfSelf<T>(s: seq<T>)
    ensures SubsequenceOf(s, s)
  {
    if s != [] {
      SubsequenceOfSelf(s[1..]);
    }
  }

  /** Unrated items never survive an enabled filter, whatever its value. */
  lemma UnratedDropped(items: seq<Item>, f: RatingFilter, it: Item)
    requires f.enabled && it.rating.None? && it.ratings.None?
    ensures it !in RatingFiltered(items, f)
  {
  }

  /** Items rated 4.4, 4.6 and 3.5 under the filter at 5 stars: only 4.6 remains,
      since 4.4 rounds to 4 and 3.5 rounds half-up to 4. */
  lemma FilterAtFiveExample(a: Item, b: Item, c: Item)
    requires a.rating == Some(4.4) && b.rating == Some(4.6) && c.rating == Some(3.5)
    ensures RatingFiltered([a, b, c], RatingFilter(5, true)) == [b]
  {
    var p := (it: Item) => RatesAt(5, it);
    assert !p(a) && p(b) && !p(c);
    assert [a, b, c][1..] == [b, c] && [b, c][1..] == [c] && [c][1..] == [];
    assert Filter([c], p) == [];
    assert Filter([b, c], p) == [b];
  }

  /** The header line "<shown> of <total> item(s) available|matching filter". */
  function CountLabel(shown: nat, total: nat, enabled: bool): (r: string)
    ensures Text.Decimal(shown) + " of " + Text.Decimal(total) + " " <= r
    ensures var k := |Text.Decimal(shown) + " of " + Text.Decimal(total) + " "|;
            |r| > k + 4 && r[k..k + 4] == "item" && (r[k + 4] == 's' <==> total != 1)
    ensures !enabled ==> |r| >= 9 && r[|r| - 9..] == "available"
    ensures enabled ==> |r| >= 15 && r[|r| - 15..] == "matching filter"
  {
    var head := Text.Decimal(shown) + " of " + Text.Decimal(total) + " ";
    var noun := if total == 1 then "item" else "items";
    var tail := if enabled then "matching filter" else "available";
    var r := head + noun + " " + tail;
    assert r[|head|..] == noun + " " + tail;
    r
  }

  /** The page's state (`useState` hooks). */
  class CategoryPageView {
    var category: Option<Category>
    var items: seq<Item>
    var filteredItems: seq<Item>
    var loading: bool
    var error: Option<string>
    var isLoaded: bool
    var ratingFilter: RatingFilter

    constructor ()
      ensures category == None && items == [] && filteredItems == []
      ensures loading && error == None && !isLoaded
      ensures ratingFilter == RatingFilter(0, false)
    {
      category := None;
      items := [];
      filteredItems := [];
      loading := true;
      error := None;
      isLoaded := false;
      ratingFilter := RatingFilter(0, false);
    }

    /** `fetchCategoryAndItems`, run when the route's category slug is non-empty.
        The items request is made only when the category is found; the
        result is the category id it was made for, if it was made. A new
        `items` list re-runs the rating-filter effect, so `filteredItems` ends
        up filtered by the filter already chosen. */
    method FetchCategoryAndItems(categorySlug: string, categoriesResponse: Envelope<seq<Category>>,
                                 itemsResponse: Envelope<seq<Item>>)
      returns (itemsRequestedFor: Option<string>)
      modifies this
      ensures ratingFilter == old(ratingFilter)
      ensures categorySlug == "" ==> itemsRequestedFor == None && unchanged(this)
      ensures categorySlug != "" ==> !loading && isLoaded
      ensures var found := LookupCategory(categorySlug, categoriesResponse);
              categorySlug != "" ==>
              && itemsRequestedFor == (if found.Found? then Some(found.value.id) else None)
              && (found.Failed? ==> error == Some(found.message))
              && (found.NotFound? ==> error == Some("Category not found"))
              && (!found.Found? ==> category == old(category) && items == old(items)
                                    && filteredItems == old(filteredItems))
              && (found.Found? ==> category == Some(found.value))
              && (found.Found? && !itemsResponse.success ==>
                    error == None && items == [] && filteredItems == [])
              && (found.Found? && itemsResponse.success && itemsResponse.data.Missing? ==>
                    error == Some(TypeErrorText) && items == old(items)
                    && filteredItems == old(filteredItems))
              && (found.Found? && itemsResponse.success && itemsResponse.data.Present? ==>
                    error == None && items == itemsResponse.data.field.GetOr([])
                    && filteredItems == RatingFiltered(items, ratingFilter))
    {
      itemsRequestedFor := None;
      if categorySlug == "" {
        return;
      }
      loading := true;
      error := None;
      var thrown: Option<string> := None;
      var found := LookupCategory(categorySlug, categoriesResponse);
      match found {
        case Failed(message) =>
          thrown := Some(message);
        case NotFound =>
          error := Some("Category not found");
        case Found(c) =>
          category := Some(c);
          itemsRequestedFor := Some(c.id);
          if itemsResponse.success {
            match FieldOrEmpty(itemsResponse.data) {
              case TypeError =>
                thrown := Some(TypeErrorText);
              case Value(list) =>
                items := list;
                filteredItems := list;
                ApplyRatingFilter();
            }
          } else {
            items := [];
            filteredItems := [];
            ApplyRatingFilter();
          }
      }
      if thrown.Some? {
        error := Some(Or(thrown.value, "Failed to load category"));
      }
      loading := false;
      isLoaded := true;
    }

    /** The effect that recomputes `filteredItems` whenever `items` or `ratingFilter` changes. */
    method ApplyRatingFilter()
      modifies this`filteredItems
      ensures filteredItems == RatingFiltered(items, ratingFilter)
    {
      if !ratingFilter.enabled {
        filteredItems := items;
      } else {
        var v := ratingFilter.value;
        filteredItems := Filter(items, (it: Item) => RatesAt(v, it));
      }
    }

    /** Choosing a star value (or switching the filter off) and the effect that follows. */
    method SetRatingFilter(f: RatingFilter)
      modifies this`ratingFilter, this`filteredItems
      ensures ratingFilter == f
      ensures filteredItems == RatingFiltered(items, f)
    {
      ratingFilter := f;
      ApplyRatingFilter();
    }

    /** The heading badge's gradient: the category's, else the default one. */
    function HeadingGradient(): (g: string)
      reads this
      ensures category.Some? && category.value.gradient != "" ==> g == category.value.gradient
      ensures category.None? || category.value.gradient == "" ==> g == "from-blue-500 to-purple-600"
    {
      Or(if category.Some? then category.value.gradient else "", "from-blue-500 to-purple-600")
    }

    /** The heading icon: the SVG icon for a known id, otherwise what `getIcon`
        gives (an emoji id as is, else the folder); the "📁" fallback after it is
        never reached because that result is never empty. */
    function HeadingIcon(): (r: Icons.Icon)
      reads this
      ensures var id := if category.Some? then category.value.icon else "";
              && (Icons.IsSvgIcon(id) ==> r == Icons.Svg(Icons.KeyOf(id).value))
              && (!Icons.IsSvgIcon(id) && Icons.LooksLikeEmoji(id) ==> r == Icons.Emoji(id))
              && (!Icons.IsSvgIcon(id) && !Icons.LooksLikeEmoji(id) ==> r == Icons.Svg(Icons.Folder))
    {
      var id := if category.Some? then category.value.icon else "";
      if Icons.IsSvgIcon(id) then
        Icons.NamedIconsResolve(Icons.KeyOf(id).value);
        Icons.GetIcon(id)
      else
        var shown := Icons.GetIcon(id);
        Icons.GetIconNeverEmpty(id);
        shown
    }

    /** The header's count line. */
    function Header(): (r: string)
      reads this
      ensures r == CountLabel(|filteredItems|, |items|, ratingFilter.enabled)
    {
      CountLabel(|filteredItems|, |items|, ratingFilter.enabled)
    }
  }
}
