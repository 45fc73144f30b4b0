/** The home page's hero: up to four category cards, a fixed list of four when
    reading the response throws, and the card icons drawn from a table of eight. */
module Hero {
  import opened Wrappers
  import opened Seqs
  import opened Catalog
  import opened Gateway
  import opened Cards
  import Icons

  /** A hero card. `categoryId` is the record's `_id`, absent on the fixed cards. */
  datatype HeroCard = HeroCard(id: string, name: string, description: string, icon: string,
                               gradient: string, categoryId: Option<string>)

  /** At most this many categories are shown. */
  const HeroCap: nat := 4

  function CardOf(c: Category): HeroCard
  {
    HeroCard(CardId(c), c.name, c.description, CardIcon(c), CardGradient(c), Some(c.id))
  }

  /** `categories.slice(0, 4).map(...)`: the first four categories, in order. */
  function HeroCards(cats: seq<Category>): (cards: seq<HeroCard>)
    ensures |cards| == if |cats| < HeroCap then |cats| else HeroCap
    ensures forall i :: 0 <= i < |cards| ==>
              && (cats[i].slug != "" ==> cards[i].id == cats[i].slug)
              && (cats[i].slug == "" ==> cards[i].id == cats[i].id)
              && cards[i].name == cats[i].name && cards[i].description == cats[i].description
              && cards[i].icon == Or(cats[i].icon, DefaultCardIcon)
              && cards[i].gradient == Or(cats[i].gradient, DefaultCardGradient)
              && cards[i].categoryId == Some(cats[i].id)
  {
    var first := Take(cats, HeroCap);
    seq(|first|, i requires 0 <= i < |first| => CardOf(first[i]))
  }

  /** The cards shown when reading the response throws. */
  const FallbackCards: seq<HeroCard> := [
    HeroCard("movies", "Movies", "Discover blockbuster hits and indie gems", "film",
             "from-red-500 to-pink-600", None),
    HeroCard("series", "TV Series", "Binge-worthy shows and limited series", "tv",
             "from-blue-500 to-purple-600", None),
    HeroCard("anime", "Anime", "Japanese animation and manga adaptations", "anime",
             "from-green-500 to-teal-600", None),
    HeroCard("games", "Games", "Gaming content and reviews", "gamepad",
             "from-orange-500 to-red-600", None)]

  /** `ModernIcons[icon] || ModernIcons.folder`: the table has the admin picker's
      icons except heart and globe. */
  function HeroIcon(icon: string): (k: Icons.IconKey)
    ensures k != Icons.Heart && k != Icons.Globe
  {
    match Icons.KeyOf(icon)
    case Some(key) => if key == Icons.Heart || key == Icons.Globe then Icons.Folder else key
    case None => Icons.Folder
  }

  /** Every icon id of the shared table draws its own icon, except heart and
      globe, which draw the folder; ids outside the table draw the folder too. */
  lemma HeroIconOfKeys(key: Icons.IconKey, other: string)
    requires Icons.KeyOf(other).None?
    ensures HeroIcon(Icons.KeyName(key))
            == (if key == Icons.Heart || key == Icons.Globe then Icons.Folder else key)
    ensures HeroIcon(other) == Icons.Folder
  {
    Icons.KeyOfName(key);
  }

  /** The fixed cards are the four built-in sections, each with its own table icon. */
  lemma FallbackCardsResolve()
    ensures |FallbackCards| == 4
    ensures forall i :: 0 <= i < |FallbackCards| ==>
              FallbackCards[i].name != "" && HeroIcon(FallbackCards[i].icon) != Icons.Folder
    ensures forall i, j :: 0 <= i < j < |FallbackCards| ==> FallbackCards[i].id != FallbackCards[j].id
  {
    HeroIconOfKeys(Icons.Film, "");
    HeroIconOfKeys(Icons.Tv, "");
    HeroIconOfKeys(Icons.Anime, "");
    HeroIconOfKeys(Icons.Gamepad, "");
  }

  /** `handleCategoryClick`: "/" + the card's id. */
  function ClickTarget(card: HeroCard): (path: string)
    ensures path == CategoryPath(card.id)
  {
    "/" + card.id
  }

  /** A card made from a category with a slug leads to that category's page. */
  lemma CardLeadsToCategory(cats: seq<Category>, i: nat)
    requires i < |cats| && i < HeroCap && cats[i].slug != ""
    ensures ClickTarget(HeroCards(cats)[i]) == CategoryPath(cats[i].slug)
  {
  }

  /** The hero's state. */
  class HeroView {
    var isLoaded: bool
    var categories: seq<HeroCard>

    constructor ()
      ensures !isLoaded && categories == []
    {
      isLoaded := false;
      categories := [];
    }

    /** `fetchCategories`: a refusal changes nothing; a missing `data` or
        `categories` throws on `.slice`, and the `catch` puts the fixed cards up. */
    method FetchCategories(response: Envelope<seq<Category>>)
      modifies this
      ensures isLoaded
      ensures !response.success ==> categories == old(categories)
      ensures response.success && Required(response.data).Value?
              ==> categories == HeroCards(Required(response.data).value)
      ensures response.success && Required(response.data).TypeError? ==> categories == FallbackCards
    {
      if response.success {
        match Required(response.data) {
          case Value(cats) =>
            categories := HeroCards(cats);
          case TypeError =>
            categories := FallbackCards;
        }
      }
      isLoaded := true;
    }
  }
}
