/** The records the gateway returns (categories and items), the first-match slug
    lookup every page uses, the related-items selection and the in-app paths. */
module Catalog {
  import opened Wrappers
  import opened Seqs

  /** A category record. Absent text fields are "" and an absent `itemCount` is None. */
  datatype Category = Category(
    id: string,
    name: string,
    slug: string,
    description: string,
    icon: string,
    gradient: string,
    status: string,
    itemCount: Option<nat>)

  /** The four optional sub-scores; None is an absent (or blank) score. */
  datatype Ratings = Ratings(
    story: Option<real>,
    graphics: Option<real>,
    gameplay: Option<real>,
    replayability: Option<real>)

  /** `item.category`: a populated category object (with `_id`) or a bare id. */
  datatype CategoryRef = Populated(id: string) | Raw(id: string)

  datatype Character = Character(name: string, image: string, description: string)

  /** An item record. Absent text fields are "", absent lists are []; `rating` is
      the optional overall numeric rating, `ratings` the optional sub-scores, and
      `createdAt` an abstract timestamp. */
  datatype Item = Item(
    id: string,
    title: string,
    description: string,
    slug: string,
    category: CategoryRef,
    status: string,
    createdAt: int,
    rating: Option<real>,
    ratings: Option<Ratings>,
    releaseDate: string,
    developer: string,
    platforms: seq<string>,
    genres: seq<string>,
    keyFeatures: seq<string>,
    storySummary: string,
    highlights: seq<string>,
    authorReview: string,
    screenshots: seq<string>,
    soundtrackLinks: seq<string>,
    characters: seq<Character>)

  /** `categories.find((cat) => cat.slug === slug)`: exact, case-sensitive, first match wins. */
  function CategoryBySlug(cats: seq<Category>, slug: string): (r: Option<Category>)
    ensures r.None? <==> forall j :: 0 <= j < |cats| ==> cats[j].slug != slug
    ensures r.Some? ==> r.value.slug == slug
    ensures r.Some? ==> exists i :: 0 <= i < |cats| && cats[i] == r.value
                                && forall j :: 0 <= j < i ==> cats[j].slug != slug
  {
    Find(cats, (c: Category) => c.slug == slug)
  }

  /** `items.find((item) => item.slug === slug)`: exact, case-sensitive, first match wins. */
  function ItemBySlug(items: seq<Item>, slug: string): (r: Option<Item>)
    ensures r.None? <==> forall j :: 0 <= j < |items| ==> items[j].slug != slug
    ensures r.Some? ==> r.value.slug == slug
    ensures r.Some? ==> exists i :: 0 <= i < |items| && items[i] == r.value
                                && forall j :: 0 <= j < i ==> items[j].slug != slug
  {
    Find(items, (it: Item) => it.slug == slug)
  }

  /** The items whose `_id` differs from `found`'s, in order. */
  function Others(items: seq<Item>, found: Item): (r: seq<Item>)
    ensures forall x :: x in r <==> x in items && x.id != found.id
  {
    FilterMembership(items, (it: Item) => it.id != found.id);
    Filter(items, (it: Item) => it.id != found.id)
  }

  /** `items.filter((x) => x._id !== found._id).slice(0, cap)`. */
  function Related(items: seq<Item>, found: Item, cap: nat): (r: seq<Item>)
    ensures |r| <= cap
    ensures r <= Others(items, found)
    ensures forall x :: x in r ==> x in items && x.id != found.id
    ensures |Others(items, found)| >= cap ==> |r| == cap
  {
    Take(Others(items, found), cap)
  }

  /** The related items keep the order they have among all the items. */
  lemma RelatedInOrder(items: seq<Item>, found: Item, cap: nat)
    ensures SubsequenceOf(Related(items, found, cap), items)
  {
    var others := Others(items, found);
    FilterIsSubsequence(items, (it: Item) => it.id != found.id);
    PrefixOfSubsequence(Related(items, found, cap), others, items);
  }

  lemma {:induction false} PrefixOfSubsequence<T>(a: seq<T>, b: seq<T>, c: seq<T>)
    requires a <= b && SubsequenceOf(b, c)
    ensures SubsequenceOf(a, c)
  {
    if a != [] && c != [] {
      if b[0] == c[0] {
        PrefixOfSubsequence(a[1..], b[1..], c[1..]);
      } else {
        PrefixOfSubsequence(a, b, c[1..]);
      }
    }
  }

  /** The route of a category page: "/" + id. */
  function CategoryPath(id: string): (p: string)
    ensures |p| == |id| + 1 && p[0] == '/' && p[1..] == id
  {
    "/" + id
  }

  /** The route of an item page: "/" + categorySlug + "/" + itemSlug. */
  function ItemPath(categorySlug: string, itemSlug: string): (p: string)
    ensures p == CategoryPath(categorySlug) + "/" + itemSlug
  {
    "/" + categorySlug + "/" + itemSlug
  }
}
