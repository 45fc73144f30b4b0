/** The explore page: every category as a card with its item count, an emoji
    for the card's icon, and the loading/error states around the one fetch. */
module Explore {
  import opened Wrappers
  import opened Catalog
  import opened Gateway
  import opened Cards
  import Icons
  import Text

  /** A card of the explore grid. `categoryId` is the record's `_id`. */
  datatype ExploreCard = ExploreCard(id: string, name: string, description: string, icon: string,
                                     gradient: string, count: string, categoryId: string)

  /** `${cat.itemCount || 0}`: the decimal digits of the count, "0" when absent. */
  function CountText(itemCount: Option<nat>): (s: string)
    ensures s != [] && forall i :: 0 <= i < |s| ==> Text.IsDigit(s[i])
    ensures Text.DecimalValue(s) == itemCount.GetOr(0)
    ensures itemCount.None? ==> s == "0"
  {
    Text.DecimalRoundTrip(itemCount.GetOr(0));
    Text.Decimal(itemCount.GetOr(0))
  }

  function CardOf(c: Category): ExploreCard
  {
    ExploreCard(CardId(c), c.name, c.description, CardIcon(c), CardGradient(c), CountText(c.itemCount), c.id)
  }

  /** The grid's cards: one per fetched category, in the same order. */
  function ExploreCards(cats: seq<Category>): (cards: seq<ExploreCard>)
    ensures |cards| == |cats|
    ensures forall i :: 0 <= i < |cats| ==>
              && (cats[i].slug != "" ==> cards[i].id == cats[i].slug)
              && (cats[i].slug == "" ==> cards[i].id == cats[i].id)
              && cards[i].name == cats[i].name && cards[i].description == cats[i].description
              && cards[i].icon == Or(cats[i].icon, DefaultCardIcon)
              && cards[i].gradient == Or(cats[i].gradient, DefaultCardGradient)
              && cards[i].count == CountText(cats[i].itemCount)
              && cards[i].categoryId == cats[i].id
  {
    seq(|cats|, i requires 0 <= i < |cats| => CardOf(cats[i]))
  }

  const FolderEmoji: string := "\U{1F4C1}"

  /** The icon chain on a card: five known ids, anything else the folder. */
  function IconEmoji(icon: string): (e: string)
  {
    if icon == "folder" then FolderEmoji
    else if icon == "film" then "\U{1F3AC}"
    else if icon == "tv" then "\U{1F4FA}"
    else if icon == "gamepad" then "\U{1F3AE}"
    else if icon == "anime" then "\U{1F5FE}"
    else FolderEmoji
  }

  /** Of the ten icons an admin can pick, only film, tv, gamepad and anime get
      their own emoji here, each a different one; the other six show the folder. */
  lemma EmojiOfIconKeys(k: Icons.IconKey, k': Icons.IconKey)
    ensures IconEmoji(Icons.KeyName(k)) == FolderEmoji
            <==> k !in {Icons.Film, Icons.Tv, Icons.Gamepad, Icons.Anime}
    ensures IconEmoji(Icons.KeyName(k)) == IconEmoji(Icons.KeyName(k')) && k != k'
            ==> IconEmoji(Icons.KeyName(k)) == FolderEmoji
  {
    assert "\U{1F3AC}" != FolderEmoji && "\U{1F4FA}" != FolderEmoji;
    assert "\U{1F3AE}" != FolderEmoji && "\U{1F5FE}" != FolderEmoji;
    assert "\U{1F3AC}" != "\U{1F4FA}" && "\U{1F3AC}" != "\U{1F3AE}" && "\U{1F3AC}" != "\U{1F5FE}";
    assert "\U{1F4FA}" != "\U{1F3AE}" && "\U{1F4FA}" != "\U{1F5FE}" && "\U{1F3AE}" != "\U{1F5FE}";
  }

  /** A category without an icon shows the folder. */
  lemma MissingIconShowsFolder(c: Category)
    requires c.icon == ""
    ensures IconEmoji(CardOf(c).icon) == FolderEmoji
  {
  }

  /** The page's state. */
  class ExploreView {
    var isLoaded: bool
    var categories: seq<ExploreCard>
    var loading: bool
    var error: Option<string>

    constructor ()
      ensures !isLoaded && categories == [] && loading && error == None
    {
      isLoaded := false;
      categories := [];
      loading := true;
      error := None;
    }

    /** The grid (or its empty notice) is shown once loading is over without an error. */
    predicate ShowGrid()
      reads this
    {
      !loading && error.None?
    }

    /** `fetchCategories`. Reading `data.categories` when either is missing
        throws, which the `catch` turns into the fixed message. */
    method FetchCategories(response: Envelope<seq<Category>>)
      modifies this
      ensures !loading && isLoaded
      ensures response.success && Required(response.data).Value?
              ==> categories == ExploreCards(Required(response.data).value) && error == old(error)
      ensures response.success && Required(response.data).TypeError?
              ==> categories == old(categories) && error == Some("Failed to fetch categories")
      ensures !response.success
              ==> categories == old(categories) && error == Some(Or(response.message, "Failed to fetch categories"))
      ensures old(error) == None ==> (ShowGrid() <==> response.success && Required(response.data).Value?)
    {
      loading := true;
      if response.success {
        match Required(response.data) {
          case Value(cats) =>
            categories := ExploreCards(cats);
          case TypeError =>
            error := Some("Failed to fetch categories");
        }
      } else {
        error := Some(Or(response.message, "Failed to fetch categories"));
      }
      loading := false;
      isLoaded := true;
    }
  }
}
