/** The admin items screen: loading the items and categories, the search /
    category / sort pipeline over the list, the edit form with its defaults, and
    the payload a save sends (blank list entries dropped, sub-scores pruned). */
module AdminItems {
  import opened Wrappers
  import opened Seqs
  import opened Catalog
  import opened Gateway
  import opened Rating
  import opened StableSort
  import Text

  // ---------------------------------------------------------------------------
  // Sub-scores as the form holds them and as a save sends them

  /** The sub-score keys, in the order `Object.keys` visits them. */
  const ScoreKeys: seq<string> := ["story", "graphics", "gameplay", "replayability"]

  /** `emptyRatings`: every sub-score blank. */
  const EmptyRatings: Ratings := Ratings(None, None, None, None)

  /** The form's value for one sub-score key. */
  function ScoreOf(rs: Ratings, key: string): Option<real>
  {
    if key == "story" then rs.story
    else if key == "graphics" then rs.graphics
    else if key == "gameplay" then rs.gameplay
    else if key == "replayability" then rs.replayability
    else None
  }

  /** `score > 0`: a blank score is not positive. */
  predicate Positive(x: Option<real>)
  {
    x.Some? && x.value > 0.0
  }

  /** `hasValidRatings`: at least one sub-score is positive. */
  predicate HasValidRatings(rs: Ratings)
  {
    Positive(rs.story) || Positive(rs.graphics) || Positive(rs.gameplay) || Positive(rs.replayability)
  }

  /** `Number(score) || undefined`: a blank or zero score becomes undefined. */
  function Coerce(x: Option<real>): (r: Option<real>)
    ensures Positive(r) <==> Positive(x)
    ensures r.Some? ==> r == x && x.value != 0.0
  {
    if x.Some? && x.value != 0.0 then x else None
  }

  /** The sub-scores a save sends: null when none is positive, otherwise an
      object holding exactly the positive ones. */
  function StoredScores(rs: Ratings): (r: Option<map<string, real>>)
    ensures r.None? <==> !HasValidRatings(rs)
    ensures r.Some? ==> |r.value| > 0
    ensures r.Some? ==> forall k :: k in r.value <==> k in ScoreKeys && Positive(ScoreOf(rs, k))
    ensures r.Some? ==> forall k :: k in r.value ==> ScoreOf(rs, k) == Some(r.value[k]) && r.value[k] > 0.0
  {
    var keys := set k | k in ScoreKeys && Positive(ScoreOf(rs, k));
    if !HasValidRatings(rs) then
      assert keys == {};
      None
    else
      assert ScoreKeys[0] in keys || ScoreKeys[1] in keys || ScoreKeys[2] in keys || ScoreKeys[3] in keys;
      var m := map k | k in keys :: ScoreOf(rs, k).value;
      assert m.Keys == keys;
      Some(m)
  }

  /** The sub-scores as a later fetch of the saved item reads them back. */
  function ReadBack(stored: Option<map<string, real>>): Option<Ratings>
  {
    match stored
    case None => None
    case Some(m) =>
      Some(Ratings(
        if "story" in m then Some(m["story"]) else None,
        if "graphics" in m then Some(m["graphics"]) else None,
        if "gameplay" in m then Some(m["gameplay"]) else None,
        if "replayability" in m then Some(m["replayability"]) else None))
  }

  /** The keys left after the deletion loop has visited the first `i` keys. */
  ghost function KeptAfter(rs: Ratings, i: nat): set<string>
    requires i <= |ScoreKeys|
  {
    set k | k in ScoreKeys && (k in ScoreKeys[..i] ==> Positive(ScoreOf(rs, k)))
  }

  lemma KeptStep(rs: Ratings, i: nat)
    requires i < |ScoreKeys|
    ensures KeptAfter(rs, i + 1)
         == if Positive(ScoreOf(rs, ScoreKeys[i])) then KeptAfter(rs, i) else KeptAfter(rs, i) - {ScoreKeys[i]}
  {
    assert ScoreKeys[..i + 1] == ScoreKeys[..i] + [ScoreKeys[i]];
    assert ScoreKeys[i] !in ScoreKeys[..i];
  }

  lemma KeptAll(rs: Ratings)
    ensures KeptAfter(rs, |ScoreKeys|) == set k | k in ScoreKeys && Positive(ScoreOf(rs, k))
  {
    assert ScoreKeys[..|ScoreKeys|] == ScoreKeys;
  }

  /** Some sub-score is positive exactly when some key holds a positive score. */
  lemma ValidKeysNonEmpty(rs: Ratings)
    ensures HasValidRatings(rs) <==> (set k | k in ScoreKeys && Positive(ScoreOf(rs, k))) != {}
  {
    var keys := set k | k in ScoreKeys && Positive(ScoreOf(rs, k));
    if keys != {} {
      var k :| k in keys;
      assert k == "story" || k == "graphics" || k == "gameplay" || k == "replayability";
    }
    if !HasValidRatings(rs) {
    } else if Positive(rs.story) {
      assert "story" in keys;
    } else if Positive(rs.graphics) {
      assert "graphics" in keys;
    } else if Positive(rs.gameplay) {
      assert "gameplay" in keys;
    } else {
      assert "replayability" in keys;
    }
  }

  /** What the deletion loop leaves, unwrapped, is the stored object. */
  lemma PrunedIsStored(rs: Ratings, m: map<string, Option<real>>)
    requires HasValidRatings(rs)
    requires m.Keys == set k | k in ScoreKeys && Positive(ScoreOf(rs, k))
    requires forall k :: k in m ==> m[k] == Coerce(ScoreOf(rs, k))
    ensures forall k :: k in m ==> m[k].Some?
    ensures StoredScores(rs) == Some(map k | k in m :: m[k].value)
  {
    var stored := StoredScores(rs).value;
    var pruned := map k | k in m :: m[k].value;
    assert stored.Keys == pruned.Keys;
    forall k | k in stored ensures stored[k] == pruned[k] {
    }
    assert stored == pruned;
  }

  /** The ratings block of `handleSubmit`: build the four coerced scores, delete
      every key whose value is undefined or not positive, and send null when
      nothing is left. */
  method PruneScores(rs: Ratings) returns (r: Option<map<string, real>>)
    ensures r == StoredScores(rs)
  {
    if !HasValidRatings(rs) {
      return None;
    }
    var m: map<string, Option<real>> := map k | k in ScoreKeys :: Coerce(ScoreOf(rs, k));
    assert m.Keys == KeptAfter(rs, 0);
    var i := 0;
    while i < |ScoreKeys|
      invariant 0 <= i <= |ScoreKeys|
      invariant m.Keys == KeptAfter(rs, i)
      invariant forall k :: k in m ==> m[k] == Coerce(ScoreOf(rs, k))
    {
      var key := ScoreKeys[i];
      KeptStep(rs, i);
      if key !in m || m[key].None? || m[key].value <= 0.0 {
        m := m - {key};
      }
      i := i + 1;
    }
    KeptAll(rs);
    ValidKeysNonEmpty(rs);
    assert |m.Keys| == |m|;
    if |m| == 0 {
      assert false;
      r := None;
    } else {
      r := Some(map k | k in m :: m[k].value);
      PrunedIsStored(rs, m);
    }
  }

  /** With no negative score in the form, pruning never changes the average the
      item page shows: only zero and blank scores are dropped, and both count as 0. */
  lemma SaveKeepsAverage(rs: Ratings)
    requires forall k :: k in ScoreKeys && ScoreOf(rs, k).Some? ==> ScoreOf(rs, k).value >= 0.0
    ensures AverageRating(ReadBack(StoredScores(rs))) == AverageRating(Some(rs))
  {
    var stored := StoredScores(rs);
    assert ScoreOf(rs, "story") == rs.story && ScoreOf(rs, "graphics") == rs.graphics;
    assert ScoreOf(rs, "gameplay") == rs.gameplay && ScoreOf(rs, "replayability") == rs.replayability;
    assert "story" in ScoreKeys && "graphics" in ScoreKeys && "gameplay" in ScoreKeys && "replayability" in ScoreKeys;
    if stored.Some? {
      var back := ReadBack(stored).value;
      assert OrZero(back.story) == OrZero(rs.story);
      assert OrZero(back.graphics) == OrZero(rs.graphics);
      assert OrZero(back.gameplay) == OrZero(rs.gameplay);
      assert OrZero(back.replayability) == OrZero(rs.replayability);
    }
  }

  // ---------------------------------------------------------------------------
  // The edit form and the save payload

  /** `formData`. Sub-scores are numbers or blank; `category` is a category id. */
  datatype ItemForm = ItemForm(
    title: string,
    description: string,
    releaseDate: string,
    developer: string,
    platforms: seq<string>,
    genres: seq<string>,
    keyFeatures: seq<string>,
    storySummary: string,
    highlights: seq<string>,
    authorReview: string,
    screenshots: seq<string>,
    soundtrackLinks: seq<string>,
    ratings: Ratings,
    characters: seq<Character>,
    slug: string,
    category: string,
    status: string)

  /** The form as first rendered and after `resetForm`: blank, with one empty
      row for each editable list and status "draft". */
  const DefaultForm: ItemForm :=
    ItemForm("", "", "", "", [], [], [""], "", [""], "", [], [""], EmptyRatings, [], "", "", "draft")

  /** `itemData`, the body of the create or update request. */
  datatype ItemPayload = ItemPayload(
    title: string,
    description: string,
    releaseDate: string,
    developer: string,
    platforms: seq<string>,
    genres: seq<string>,
    keyFeatures: seq<string>,
    storySummary: string,
    highlights: seq<string>,
    authorReview: string,
    screenshots: seq<string>,
    soundtrackLinks: seq<string>,
    ratings: Option<map<string, real>>,
    characters: seq<Character>,
    slug: string,
    category: string,
    status: string)

  /** The request a save makes. */
  datatype Mutation = Create(payload: ItemPayload) | Update(id: string, payload: ItemPayload)

  /** The payload a save builds from the form and the uploaded screenshot URLs. */
  function BuildPayload(form: ItemForm, uploaded: seq<string>): (p: ItemPayload)
    ensures p.screenshots == form.screenshots + uploaded
    ensures p.ratings == StoredScores(form.ratings)
    ensures p.platforms == Text.Compact(form.platforms) && p.genres == Text.Compact(form.genres)
    ensures p.keyFeatures == Text.Compact(form.keyFeatures) && p.highlights == Text.Compact(form.highlights)
    ensures p.soundtrackLinks == Text.Compact(form.soundtrackLinks)
    ensures p.title == form.title && p.description == form.description
    ensures p.releaseDate == form.releaseDate && p.developer == form.developer
    ensures p.storySummary == form.storySummary && p.authorReview == form.authorReview
    ensures p.characters == form.characters && p.slug == form.slug
    ensures p.category == form.category && p.status == form.status
  {
    ItemPayload(form.title, form.description, form.releaseDate, form.developer,
      Text.Compact(form.platforms), Text.Compact(form.genres), Text.Compact(form.keyFeatures),
      form.storySummary, Text.Compact(form.highlights), form.authorReview,
      form.screenshots + uploaded, Text.Compact(form.soundtrackLinks),
      StoredScores(form.ratings), form.characters, form.slug, form.category, form.status)
  }

  /** Saving the untouched default form sends no list entries, no ratings, status "draft". */
  lemma DefaultPayload()
    ensures var p := BuildPayload(DefaultForm, []);
            && p.platforms == [] && p.genres == [] && p.keyFeatures == [] && p.highlights == []
            && p.soundtrackLinks == [] && p.screenshots == [] && p.ratings == None
            && p.status == "draft"
  {
    var p := BuildPayload(DefaultForm, []);
    assert "" !in p.keyFeatures && "" !in p.highlights && "" !in p.soundtrackLinks;
  }

  /** An edited list: the item's own entries, or one empty row when it has none. */
  function OrBlankRow(list: seq<string>): (r: seq<string>)
    ensures |r| >= 1
    ensures list != [] ==> r == list
    ensures list == [] ==> r == [""]
  {
    if |list| > 0 then list else [""]
  }

  /** `handleEdit`'s form: the item's fields, the release date cut to its first
      ten characters, the category as its id, blank sub-scores when it has none. */
  function EditForm(it: Item): (f: ItemForm)
    ensures f.releaseDate == Take(it.releaseDate, 10)
    ensures |f.releaseDate| <= 10 && f.releaseDate <= it.releaseDate
    ensures f.keyFeatures == OrBlankRow(it.keyFeatures) && f.highlights == OrBlankRow(it.highlights)
    ensures f.soundtrackLinks == OrBlankRow(it.soundtrackLinks)
    ensures it.ratings.Some? ==> f.ratings == it.ratings.value
    ensures it.ratings.None? ==> f.ratings == EmptyRatings
    ensures f.title == it.title && f.description == it.description && f.developer == it.developer
    ensures f.platforms == it.platforms && f.genres == it.genres && f.screenshots == it.screenshots
    ensures f.storySummary == it.storySummary && f.authorReview == it.authorReview
    ensures f.characters == it.characters && f.slug == it.slug && f.status == it.status
    ensures f.category == it.category.id
  {
    ItemForm(it.title, it.description, Take(it.releaseDate, 10), it.developer,
      it.platforms, it.genres, OrBlankRow(it.keyFeatures), it.storySummary,
      OrBlankRow(it.highlights), it.authorReview, it.screenshots,
      OrBlankRow(it.soundtrackLinks), it.ratings.GetOr(EmptyRatings), it.characters,
      it.slug, it.category.id, it.status)
  }

  /** Stored sub-scores the editor reproduces: none at all, or only positive
      ones with at least one present. */
  predicate CleanRatings(o: Option<Ratings>)
  {
    o.None? ||
    (HasValidRatings(o.value)
     && forall k :: k in ScoreKeys && ScoreOf(o.value, k).Some? ==> ScoreOf(o.value, k).value > 0.0)
  }

  /** Opening an item in the editor and saving it without changes sends the
      item's own fields back, provided the item is in the shape the editor
      produces (no empty list entries, a date of at most ten characters, clean
      sub-scores). */
  lemma EditSaveRoundTrip(it: Item)
    requires "" !in it.platforms && "" !in it.genres && "" !in it.keyFeatures
    requires "" !in it.highlights && "" !in it.soundtrackLinks
    requires |it.releaseDate| <= 10
    requires CleanRatings(it.ratings)
    ensures var p := BuildPayload(EditForm(it), []);
            && p.title == it.title && p.description == it.description
            && p.releaseDate == it.releaseDate && p.developer == it.developer
            && p.platforms == it.platforms && p.genres == it.genres
            && p.keyFeatures == it.keyFeatures && p.storySummary == it.storySummary
            && p.highlights == it.highlights && p.authorReview == it.authorReview
            && p.screenshots == it.screenshots && p.soundtrackLinks == it.soundtrackLinks
            && ReadBack(p.ratings) == it.ratings && p.characters == it.characters
            && p.slug == it.slug && p.category == it.category.id && p.status == it.status
  {
    var f := EditForm(it);
    Text.CompactClean(it.platforms);
    Text.CompactClean(it.genres);
    OrBlankRowCompacts(it.keyFeatures);
    OrBlankRowCompacts(it.highlights);
    OrBlankRowCompacts(it.soundtrackLinks);
    assert f.screenshots + [] == it.screenshots;
    ScoresReadBack(it.ratings);
  }

  /** A list without empty entries survives the blank row and the compaction. */
  lemma OrBlankRowCompacts(list: seq<string>)
    requires "" !in list
    ensures Text.Compact(OrBlankRow(list)) == list
  {
    Text.CompactClean(list);
    assert Text.Compact([""]) == [];
  }

  /** Clean sub-scores, as the editor shows them, are stored and read back unchanged. */
  lemma ScoresReadBack(o: Option<Ratings>)
    requires CleanRatings(o)
    ensures ReadBack(StoredScores(o.GetOr(EmptyRatings))) == o
  {
    if o.Some? {
      var rs := o.value;
      assert ScoreOf(rs, "story") == rs.story && ScoreOf(rs, "graphics") == rs.graphics;
      assert ScoreOf(rs, "gameplay") == rs.gameplay && ScoreOf(rs, "replayability") == rs.replayability;
      assert "story" in ScoreKeys && "graphics" in ScoreKeys && "gameplay" in ScoreKeys && "replayability" in ScoreKeys;
    }
  }

  /** The request for a save: an update of the item being edited, else a create. */
  function MutationFor(editing: Option<Item>, p: ItemPayload): (m: Mutation)
    ensures m.Update? <==> editing.Some?
    ensures m.Update? ==> m.id == editing.value.id
    ensures m.payload == p
  {
    if editing.Some? then Update(editing.value.id, p) else Create(p)
  }

  // ---------------------------------------------------------------------------
  // The list pipeline: filter, then sort

  /** The search: the term, lower-cased, occurs in the lower-cased title or description. */
  predicate MatchesSearch(it: Item, term: string)
  {
    Text.Contains(Text.ToLower(it.title), Text.ToLower(term))
    || Text.Contains(Text.ToLower(it.description), Text.ToLower(term))
  }

  /** The category filter: off when nothing is selected, otherwise only items
      whose populated category has the selected id (a bare id never matches). */
  predicate MatchesCategory(it: Item, selected: string)
  {
    selected == "" || (it.category.Populated? && it.category.id == selected)
  }

  /** The filter step of `filteredItems`: null entries dropped, then search and
      category. Like any `filter`, it keeps the order of the present entries and
      one entry per matching one. */
  function FilterItems(items: seq<Option<Item>>, term: string, selected: string): (r: seq<Item>)
    ensures |r| <= |items|
    ensures forall x :: x in r <==> Some(x) in items && MatchesSearch(x, term) && MatchesCategory(x, selected)
    ensures SubsequenceOf(r, Present(items))
    ensures |r| == Count(Present(items), (x: Item) => Matches(x, term, selected))
  {
    var present := Present(items);
    FilterMembership(present, (x: Item) => Matches(x, term, selected));
    FilterIsSubsequence(present, (x: Item) => Matches(x, term, selected));
    Filter(present, (x: Item) => Matches(x, term, selected))
  }

  /** An item the list shows: it matches both the search and the category. */
  predicate Matches(it: Item, term: string, selected: string)
  {
    MatchesSearch(it, term) && MatchesCategory(it, selected)
  }

  /** The entries of the fetched list that are not null, in order: wrapped
      back, they are a subsequence of the list with one entry per non-null one. */
  function Present(items: seq<Option<Item>>): (r: seq<Item>)
    ensures forall x :: x in r <==> Some(x) in items
    ensures SubsequenceOf(Wrapped(r), items)
    ensures |r| == Count(items, IsPresent)
  {
    if items == [] then []
    else
      assert forall x :: Some(x) in items <==> Some(x) == items[0] || Some(x) in items[1..];
      var rest := Present(items[1..]);
      match items[0]
      case Some(x) =>
        assert Wrapped([x] + rest) == [Some(x)] + Wrapped(rest);
        [x] + rest
      case None =>
        rest
  }

  /** A fetched entry that is not null. */
  predicate IsPresent(o: Option<Item>) {
    o.Some?
  }

  /** The items as entries of the fetched list. */
  function Wrapped(r: seq<Item>): (w: seq<Option<Item>>)
    ensures |w| == |r| && forall i :: 0 <= i < |r| ==> w[i] == Some(r[i])
  {
    seq(|r|, i requires 0 <= i < |r| => Some(r[i]))
  }


  /** With an empty search and no category selected, every present item is listed, in order. */
  lemma {:induction false} NoFilterKeepsAll(items: seq<Option<Item>>)
    ensures FilterItems(items, "", "") == Present(items)
  {
    if items != [] {
      NoFilterKeepsAll(items[1..]);
      if items[0].Some? {
        Text.EmptyContained(Text.ToLower(items[0].value.title));
      }
    }
  }

  /** The search ignores the case of the term. */
  lemma SearchIgnoresTermCase(it: Item, term: string)
    ensures MatchesSearch(it, term) <==> MatchesSearch(it, Text.ToLower(term))
  {
    Text.ToLowerIdempotent(term);
  }

  /** The admin rating comparison: the higher average first. When either side has
      only some sub-scores its average is NaN, and a NaN comparison counts as 0. */
  function RatingOrder(a: Item, b: Item): (r: real)
    ensures AdminScore(a).Some? && AdminScore(b).Some? ==> r == AdminScore(b).value - AdminScore(a).value
    ensures AdminScore(a).None? || AdminScore(b).None? ==> r == 0.0
  {
    match (AdminScore(a), AdminScore(b))
    case (Some(x), Some(y)) => y - x
    case _ => 0.0
  }

  /** The comparator for a `sortBy` value; an unknown value compares everything equal. */
  function Comparator(sortBy: string): (Item, Item) -> real
  {
    if sortBy == "newest" then (a: Item, b: Item) => (b.createdAt - a.createdAt) as real
    else if sortBy == "oldest" then (a: Item, b: Item) => (a.createdAt - b.createdAt) as real
    else if sortBy == "title" then (a: Item, b: Item) => Text.Compare(a.title, b.title) as real
    else if sortBy == "rating" then (a: Item, b: Item) => RatingOrder(a, b)
    else (a: Item, b: Item) => 0.0
  }

  /** `filteredItems`: the filtered list, stably sorted by the chosen key. */
  function VisibleItems(items: seq<Option<Item>>, term: string, selected: string, sortBy: string): (r: seq<Item>)
    ensures multiset(r) == multiset(FilterItems(items, term, selected))
  {
    Sort(FilterItems(items, term, selected), Comparator(sortBy))
  }

  /** Whether the comparator for `sortBy` is a consistent order on `s`: always,
      except for the rating sort when some item has only part of its sub-scores. */
  predicate OrderedKey(sortBy: string, s: seq<Item>)
  {
    sortBy != "rating" || forall x :: x in s ==> AdminScore(x).Some?
  }

  lemma ComparatorConsistent(sortBy: string, s: seq<Item>)
    requires OrderedKey(sortBy, s)
    ensures ConsistentOn(Comparator(sortBy), s)
  {
    var cmp := Comparator(sortBy);
    if sortBy == "title" {
      forall a, b | a in s && b in s ensures cmp(a, b) < 0.0 <==> cmp(b, a) > 0.0 {
        Text.CompareAntisymmetric(a.title, b.title);
      }
      forall a, b, c | a in s && b in s && c in s && cmp(a, b) <= 0.0 && cmp(b, c) <= 0.0
        ensures cmp(a, c) <= 0.0
      {
        Text.CompareTransitive(a.title, b.title, c.title);
      }
    }
  }

  /** The list is in the chosen order whenever that order is consistent. */
  lemma VisibleSorted(items: seq<Option<Item>>, term: string, selected: string, sortBy: string)
    requires OrderedKey(sortBy, FilterItems(items, term, selected))
    ensures Sorted(VisibleItems(items, term, selected, sortBy), Comparator(sortBy))
  {
    SortedByKey(FilterItems(items, term, selected), sortBy);
  }

  /** Sorting any list by a consistent key leaves it in that key's order. */
  lemma SortedByKey(s: seq<Item>, sortBy: string)
    requires OrderedKey(sortBy, s)
    ensures Sorted(Sort(s, Comparator(sortBy)), Comparator(sortBy))
  {
    ComparatorConsistent(sortBy, s);
    SortSorted(s, Comparator(sortBy));
  }

  /** "newest" lists later timestamps first, "oldest" earlier ones first, "title"
      in code-point order, "rating" (all sub-scores present) the higher average first. */
  lemma VisibleOrderMeaning(items: seq<Option<Item>>, term: string, selected: string, sortBy: string)
    requires OrderedKey(sortBy, FilterItems(items, term, selected))
    ensures var v := VisibleItems(items, term, selected, sortBy);
            forall i, j :: 0 <= i < j < |v| ==>
              && (sortBy == "newest" ==> v[i].createdAt >= v[j].createdAt)
              && (sortBy == "oldest" ==> v[i].createdAt <= v[j].createdAt)
              && (sortBy == "title" ==> Text.Compare(v[i].title, v[j].title) <= 0)
              && (sortBy == "rating" ==> AdminScore(v[i]).Some? && AdminScore(v[j]).Some?
                                         && AdminScore(v[i]).value >= AdminScore(v[j]).value)
  {
    var s := FilterItems(items, term, selected);
    SortedOrderMeaning(s, sortBy);
    assert VisibleItems(items, term, selected, sortBy) == Sort(s, Comparator(sortBy));
  }

  /** The meaning of each sort key for the sorted copy of any list. */
  lemma SortedOrderMeaning(s: seq<Item>, sortBy: string)
    requires OrderedKey(sortBy, s)
    ensures var v := Sort(s, Comparator(sortBy));
            forall i, j :: 0 <= i < j < |v| ==>
              && (sortBy == "newest" ==> v[i].createdAt >= v[j].createdAt)
              && (sortBy == "oldest" ==> v[i].createdAt <= v[j].createdAt)
              && (sortBy == "title" ==> Text.Compare(v[i].title, v[j].title) <= 0)
              && (sortBy == "rating" ==> AdminScore(v[i]).Some? && AdminScore(v[j]).Some?
                                         && AdminScore(v[i]).value >= AdminScore(v[j]).value)
  {
    var cmp := Comparator(sortBy);
    var v := Sort(s, cmp);
    SortedByKey(s, sortBy);
    forall i, j | 0 <= i < j < |v|
      ensures sortBy == "rating" ==> AdminScore(v[i]).Some? && AdminScore(v[j]).Some?
                                     && AdminScore(v[i]).value >= AdminScore(v[j]).value
    {
      if sortBy == "rating" {
        assert v[i] in multiset(v) && v[j] in multiset(v);
        assert cmp(v[i], v[j]) <= 0.0;
      }
    }
  }

  /** Items the comparator ties keep the order they had in the filtered list. */
  lemma VisibleStable(items: seq<Option<Item>>, term: string, selected: string, sortBy: string, y: Item)
    requires OrderedKey(sortBy, FilterItems(items, term, selected))
    requires y in FilterItems(items, term, selected)
    ensures Class(VisibleItems(items, term, selected, sortBy), Comparator(sortBy), y)
         == Class(FilterItems(items, term, selected), Comparator(sortBy), y)
  {
    ComparatorConsistent(sortBy, FilterItems(items, term, selected));
    SortStable(FilterItems(items, term, selected), Comparator(sortBy), y);
  }

  /** An unknown sort key leaves the filtered list in fetch order. */
  lemma UnknownSortKeepsOrder(items: seq<Option<Item>>, term: string, selected: string, sortBy: string)
    requires sortBy !in {"newest", "oldest", "title", "rating"}
    ensures VisibleItems(items, term, selected, sortBy) == FilterItems(items, term, selected)
  {
    SortAllEqual(FilterItems(items, term, selected), Comparator(sortBy));
  }

  /** The stats bar: total, active and draft counts of the visible list. */
  function StatusCounts(visible: seq<Item>): (r: (nat, nat, nat))
    ensures r.0 == |visible|
    ensures r.1 == |set i | 0 <= i < |visible| && visible[i].status == "active"|
    ensures r.2 == |set i | 0 <= i < |visible| && visible[i].status == "draft"|
    ensures r.1 + r.2 <= r.0
  {
    var active := (x: Item) => x.status == "active";
    var draft := (x: Item) => x.status == "draft";
    CountDisjoint(visible, active, draft);
    assert Positions(visible, active) == set i | 0 <= i < |visible| && visible[i].status == "active";
    assert Positions(visible, draft) == set i | 0 <= i < |visible| && visible[i].status == "draft";
    (|visible|, Count(visible, active), Count(visible, draft))
  }

  // ---------------------------------------------------------------------------
  // The screen's state

  /** `items` after `fetchItems`: `data?.items || []` on success, [] otherwise. */
  function FetchedItems(outcome: Outcome<seq<Option<Item>>>): (r: seq<Option<Item>>)
    ensures outcome.Returned? && outcome.envelope.success
            ==> r == OptionalFieldOrEmpty(outcome.envelope.data)
    ensures !(outcome.Returned? && outcome.envelope.success) ==> r == []
  {
    if outcome.Returned? && outcome.envelope.success then OptionalFieldOrEmpty(outcome.envelope.data)
    else []
  }

  /** `error` after `fetchItems`; a success leaves an earlier error in place. */
  function FetchError(outcome: Outcome<seq<Option<Item>>>, previous: Option<string>): (r: Option<string>)
    ensures outcome.Returned? && outcome.envelope.success ==> r == previous
    ensures outcome.Returned? && !outcome.envelope.success
            ==> r == Some(Or(outcome.envelope.message, "Failed to fetch items"))
    ensures outcome.Threw? ==> r == Some("An error occurred while fetching items")
  {
    match outcome
    case Returned(env) => if env.success then previous else Some(Or(env.message, "Failed to fetch items"))
    case Threw(_) => Some("An error occurred while fetching items")
  }

  /** The form errors of a failed save: a thrown call, and a refusal without a message. */
  const SaveErrorText: string := "An error occurred while saving the item"
  const SaveFailedText: string := "Failed to save item"

  class ItemsPageView {
    var items: seq<Option<Item>>
    var categories: seq<Category>
    var loading: bool
    var error: Option<string>
    var formError: string
    var showModal: bool
    var editingItem: Option<Item>
    var uploadingImage: bool
    var searchTerm: string
    var selectedCategory: string
    var sortBy: string
    var form: ItemForm

    constructor ()
      ensures items == [] && categories == [] && loading && error == None
      ensures formError == "" && !showModal && editingItem == None && !uploadingImage
      ensures searchTerm == "" && selectedCategory == "" && sortBy == "newest"
      ensures form == DefaultForm
    {
      items := [];
      categories := [];
      loading := true;
      error := None;
      formError := "";
      showModal := false;
      editingItem := None;
      uploadingImage := false;
      searchTerm := "";
      selectedCategory := "";
      sortBy := "newest";
      form := DefaultForm;
    }

    /** `fetchItems`, given what the admin `getAll` call produced. */
    method FetchItems(outcome: Outcome<seq<Option<Item>>>)
      modifies this`loading, this`items, this`error
      ensures !loading
      ensures items == FetchedItems(outcome)
      ensures error == FetchError(outcome, old(error))
    {
      loading := true;
      match outcome {
        case Returned(response) =>
          if response.success {
            items := OptionalFieldOrEmpty(response.data);
          } else {
            error := Some(Or(response.message, "Failed to fetch items"));
            items := [];
          }
        case Threw(_) =>
          error := Some("An error occurred while fetching items");
          items := [];
      }
      loading := false;
    }

    /** `fetchCategories`: the category list for the filter and the form, [] on any failure. */
    method FetchCategories(outcome: Outcome<seq<Category>>)
      modifies this`categories
      ensures outcome.Returned? && outcome.envelope.success
              ==> categories == OptionalFieldOrEmpty(outcome.envelope.data)
      ensures !(outcome.Returned? && outcome.envelope.success) ==> categories == []
    {
      match outcome {
        case Returned(response) =>
          if response.success {
            categories := OptionalFieldOrEmpty(response.data);
          } else {
            categories := [];
          }
        case Threw(_) =>
          categories := [];
      }
    }

    /** `handleEdit`: open the modal on the item's values. */
    method HandleEdit(it: Item)
      modifies this`editingItem, this`form, this`showModal, this`formError
      ensures editingItem == Some(it) && form == EditForm(it)
      ensures showModal && formError == ""
    {
      editingItem := Some(it);
      form := EditForm(it);
      showModal := true;
      formError := "";
    }

    /** `resetForm`: back to the default form, nothing being edited, modal closed. */
    method ResetForm()
      modifies this`form, this`editingItem, this`showModal, this`formError
      ensures form == DefaultForm && editingItem == None && !showModal && formError == ""
    {
      form := DefaultForm;
      editingItem := None;
      showModal := false;
      formError := "";
    }

    /** The request `handleSubmit` makes once the screenshots are uploaded. */
    method SaveRequest(uploadedUrls: seq<string>) returns (m: Mutation)
      ensures m == MutationFor(editingItem, BuildPayload(form, uploadedUrls))
    {
      var ratings := PruneScores(form.ratings);
      var payload := BuildPayload(form, uploadedUrls).(ratings := ratings);
      if editingItem.Some? {
        m := Update(editingItem.value.id, payload);
      } else {
        m := Create(payload);
      }
    }

    /** `handleSubmit`. `uploaded` is the outcome of the screenshot uploads (None
        when one of them threw, `Some([])` when there was nothing to upload),
        `response` what the create or update call produced, and `refetch` what
        the reload after a successful save produced. The result is the request
        made, if one was. */
    method Submit(uploaded: Option<seq<string>>, response: Outcome<Item>,
                  refetch: Outcome<seq<Option<Item>>>)
      returns (request: Option<Mutation>)
      modifies this`uploadingImage, this`form, this`editingItem, this`showModal, this`formError,
               this`loading, this`items, this`error
      ensures !uploadingImage
      ensures uploaded.None? ==> request == None && formError == SaveErrorText
      ensures uploaded.None? ==> form == old(form) && editingItem == old(editingItem)
                                 && showModal == old(showModal) && items == old(items)
                                 && error == old(error) && loading == old(loading)
      ensures uploaded.Some? ==>
                request == Some(MutationFor(old(editingItem), BuildPayload(old(form), uploaded.value)))
      ensures uploaded.Some? ==> SavedAs(response, refetch, old(form), old(editingItem), old(showModal),
                                         old(items), old(error), old(loading))
    {
      formError := "";
      uploadingImage := true;
      if uploaded.None? {
        formError := SaveErrorText;
        request := None;
      } else {
        var m := Save(uploaded.value, response, refetch);
        request := Some(m);
      }
      uploadingImage := false;
    }

    /** The `try` block once the screenshots are uploaded: send the request,
        then handle its answer. */
    method Save(uploadedUrls: seq<string>, response: Outcome<Item>,
                refetch: Outcome<seq<Option<Item>>>) returns (m: Mutation)
      modifies this`form, this`editingItem, this`showModal, this`formError,
               this`loading, this`items, this`error
      ensures m == MutationFor(old(editingItem), BuildPayload(old(form), uploadedUrls))
      ensures SavedAs(response, refetch, old(form), old(editingItem), old(showModal),
                      old(items), old(error), old(loading))
    {
      m := SaveRequest(uploadedUrls);
      HandleSaveResponse(response, refetch);
    }

    /** The state after the create or update call answered `response`. */
    ghost predicate SavedAs(response: Outcome<Item>, refetch: Outcome<seq<Option<Item>>>,
                            form0: ItemForm, editing0: Option<Item>, modal0: bool,
                            items0: seq<Option<Item>>, error0: Option<string>, loading0: bool)
      reads this`form, this`editingItem, this`showModal, this`formError,
            this`loading, this`items, this`error
    {
      match response
      case Returned(env) =>
        if env.success then
          && form == DefaultForm && editingItem == None && !showModal && formError == ""
          && !loading && items == FetchedItems(refetch) && error == FetchError(refetch, error0)
        else
          && formError == Or(env.message, SaveFailedText)
          && form == form0 && editingItem == editing0 && showModal == modal0
          && items == items0 && error == error0 && loading == loading0
      case Threw(_) =>
        && formError == SaveErrorText
        && form == form0 && editingItem == editing0 && showModal == modal0
        && items == items0 && error == error0 && loading == loading0
    }

    /** The answer to the save: on success reload the list and reset the form,
        otherwise report the failure in the form. */
    method HandleSaveResponse(response: Outcome<Item>, refetch: Outcome<seq<Option<Item>>>)
      modifies this`form, this`editingItem, this`showModal, this`formError,
               this`loading, this`items, this`error
      ensures SavedAs(response, refetch, old(form), old(editingItem), old(showModal),
                      old(items), old(error), old(loading))
    {
      match response {
        case Returned(env) =>
          if env.success {
            FetchItems(refetch);
            ResetForm();
          } else {
            formError := Or(env.message, SaveFailedText);
          }
        case Threw(_) =>
          formError := SaveErrorText;
      }
    }

    /** The list the screen shows for its current state. */
    function Visible(): (r: seq<Item>)
      reads this
      ensures forall x :: x in r <==> Some(x) in items && MatchesSearch(x, searchTerm)
                                      && MatchesCategory(x, selectedCategory)
    {
      var v := VisibleItems(items, searchTerm, selectedCategory, sortBy);
      assert forall x :: x in v <==> x in multiset(v);
      v
    }
  }
}
