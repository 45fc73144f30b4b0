/** The breadcrumb trail: the path split into segments, one crumb per segment
    linking to the path up to it, and a label taken from the names fetched for
    the current path, the fixed table, or the capitalised segment. */
module Breadcrumb {
  import opened Wrappers
  import opened Seqs
  import opened Catalog
  import opened Gateway
  import Text

  /** `pathname.split("/").filter((x) => x)`: the non-empty pieces, in order, one
      segment for each piece that is not empty. */
  function Segments(pathname: string): (r: seq<string>)
    ensures forall i :: 0 <= i < |r| ==> r[i] != "" && '/' !in r[i]
    ensures SubsequenceOf(r, Text.Split(pathname))
    ensures forall x :: x in Text.Split(pathname) && x != "" ==> x in r
    ensures var pieces := Text.Split(pathname);
            |r| + |set i | 0 <= i < |pieces| && pieces[i] == ""| == |pieces|
  {
    var pieces := Text.Split(pathname);
    var r := Text.Compact(pieces);
    assert forall i :: 0 <= i < |r| ==> r[i] in pieces;
    r
  }

  /** A segment as it can appear in a path: non-empty and without a slash. */
  predicate CleanSegment(s: string)
  {
    s != "" && '/' !in s
  }

  /** "/" followed by clean segments joined with "/" splits back into those segments. */
  lemma SegmentsOfPath(segs: seq<string>)
    requires segs != []
    requires forall i :: 0 <= i < |segs| ==> CleanSegment(segs[i])
    ensures Segments("/" + Text.Join(segs)) == segs
  {
    SplitOfPath(segs);
    Text.CompactDropsBlank(segs);
    Text.CompactClean(segs);
  }

  /** The pieces of such a path: an empty one before the first slash, then the segments. */
  lemma SplitOfPath(segs: seq<string>)
    requires segs != []
    requires forall i :: 0 <= i < |segs| ==> CleanSegment(segs[i])
    ensures Text.Split("/" + Text.Join(segs)) == [""] + segs
  {
    Text.SplitJoin(segs);
    Text.SplitPiece("", Text.Join(segs));
    assert "" + "/" + Text.Join(segs) == "/" + Text.Join(segs);
  }

  /** An item page's path yields exactly the category slug and the item slug. */
  lemma ItemPathSegments(categorySlug: string, itemSlug: string)
    requires CleanSegment(categorySlug) && CleanSegment(itemSlug)
    ensures Segments(ItemPath(categorySlug, itemSlug)) == [categorySlug, itemSlug]
  {
    var segs := [categorySlug, itemSlug];
    assert Text.Join(segs[1..]) == itemSlug;
    assert Text.Join(segs) == categorySlug + "/" + itemSlug;
    assert "/" + Text.Join(segs) == ItemPath(categorySlug, itemSlug);
    SegmentsOfPath(segs);
  }

  /** The link of the crumb at `index`: "/" + the first index+1 segments joined with "/". */
  function RouteTo(segs: seq<string>, index: nat): (r: string)
    requires index < |segs|
    ensures |r| >= 1 && r[0] == '/'
  {
    "/" + Text.Join(segs[..index + 1])
  }

  lemma {:induction false} JoinSnoc(parts: seq<string>, x: string)
    requires parts != []
    ensures Text.Join(parts + [x]) == Text.Join(parts) + "/" + x
  {
    if |parts| == 1 {
      assert (parts + [x])[1..] == [x];
    } else {
      assert (parts + [x])[1..] == parts[1..] + [x];
      JoinSnoc(parts[1..], x);
    }
  }

  /** Each crumb's link extends the previous crumb's link by one segment. */
  lemma RouteExtends(segs: seq<string>, index: nat)
    requires index + 1 < |segs|
    ensures RouteTo(segs, index + 1) == RouteTo(segs, index) + "/" + segs[index + 1]
  {
    assert segs[..index + 2] == segs[..index + 1] + [segs[index + 1]];
    JoinSnoc(segs[..index + 1], segs[index + 1]);
  }

  /** Following a crumb's link gives a path whose segments are the crumbs up to it;
      the last crumb links back to the current path's segments. */
  lemma RouteSegments(segs: seq<string>, index: nat)
    requires index < |segs|
    requires forall i :: 0 <= i < |segs| ==> CleanSegment(segs[i])
    ensures Segments(RouteTo(segs, index)) == segs[..index + 1]
    ensures index == |segs| - 1 ==> Segments(RouteTo(segs, index)) == segs
  {
    SegmentsOfPath(segs[..index + 1]);
    assert index == |segs| - 1 ==> segs[..index + 1] == segs;
  }

  /** `breadcrumbNames`, the fixed labels. */
  function StaticName(segment: string): (r: Option<string>)
    ensures r.Some? ==> r.value != ""
  {
    if segment == "movies" then Some("Movies")
    else if segment == "series" then Some("TV Series")
    else if segment == "anime" then Some("Anime")
    else if segment == "games" then Some("Games")
    else if segment == "explore" then Some("Explore")
    else if segment == "admin" then Some("Admin")
    else if segment == "categories" then Some("Categories")
    else if segment == "items" then Some("Items")
    else None
  }

  /** A crumb's label: a non-empty fetched name, else the fixed label, else the
      segment with its first letter upper-cased. */
  function DisplayName(segment: string, dynamicNames: map<string, string>): (r: string)
    ensures segment in dynamicNames && dynamicNames[segment] != "" ==> r == dynamicNames[segment]
    ensures !(segment in dynamicNames && dynamicNames[segment] != "") && StaticName(segment).Some?
            ==> r == StaticName(segment).value
    ensures !(segment in dynamicNames && dynamicNames[segment] != "") && StaticName(segment).None?
            ==> r == Text.Capitalize(segment)
    ensures segment != "" ==> r != ""
  {
    var fetched := if segment in dynamicNames then dynamicNames[segment] else "";
    var fixed := StaticName(segment).GetOr("");
    Or(fetched, Or(fixed, Text.Capitalize(segment)))
  }

  /** Slug to name for a category list, as successive assignments leave it: a
      later category with the same slug overwrites an earlier one. */
  function SlugNames(cats: seq<Category>): (r: map<string, string>)
    ensures forall k :: k in r <==> exists c :: c in cats && c.slug == k
    ensures forall k :: k in r ==> exists c :: c in cats && c.slug == k && r[k] == c.name
  {
    if cats == [] then map[]
    else
      var init := cats[..|cats| - 1];
      var last := cats[|cats| - 1];
      var before := SlugNames(init);
      assert forall c :: c in cats <==> c in init || c == last;
      before[last.slug := last.name]
  }

  /** A slug is named after the last category that carries it. */
  lemma {:induction false} SlugNamesLastWins(cats: seq<Category>, i: nat)
    requires i < |cats|
    requires forall j :: i < j < |cats| ==> cats[j].slug != cats[i].slug
    ensures SlugNames(cats)[cats[i].slug] == cats[i].name
  {
    if i < |cats| - 1 {
      var init := cats[..|cats| - 1];
      SlugNamesLastWins(init, i);
    }
  }

  /** `categories.forEach((cat) => names[cat.slug] = cat.name)`. */
  method NamesBySlug(cats: seq<Category>) returns (names: map<string, string>)
    ensures names == SlugNames(cats)
  {
    names := map[];
    var i := 0;
    while i < |cats|
      invariant 0 <= i <= |cats|
      invariant names == SlugNames(cats[..i])
    {
      assert cats[..i + 1][..i] == cats[..i];
      names := names[cats[i].slug := cats[i].name];
      i := i + 1;
    }
    assert cats[..i] == cats;
  }

  /** One rendered crumb: its caption, and the route it links to, or None for the
      current page's crumb, which is a plain span. */
  datatype Crumb = Crumb(caption: string, link: Option<string>)

  /** The crumbs after "Home", one per segment; `isLast` decides which is unlinked. */
  function Crumbs(segs: seq<string>, dynamicNames: map<string, string>): (r: seq<Crumb>)
    ensures |r| == |segs|
    ensures forall i :: 0 <= i < |r| ==> r[i].caption == DisplayName(segs[i], dynamicNames)
    ensures forall i :: 0 <= i < |r| ==> (r[i].link.None? <==> i == |r| - 1)
    ensures forall i :: 0 <= i < |r| && r[i].link.Some? ==> r[i].link.value == RouteTo(segs, i)
  {
    seq(|segs|, i requires 0 <= i < |segs| =>
      Crumb(DisplayName(segs[i], dynamicNames), if i == |segs| - 1 then None else Some(RouteTo(segs, i))))
  }

  /** Following any linked crumb of a path made of clean segments leads to a
      strictly shorter path: the segments up to that crumb. So every crumb but the
      current page's is a way back up, and the current page never links to itself. */
  lemma CrumbLinksLeadUp(segs: seq<string>, dynamicNames: map<string, string>)
    requires forall i :: 0 <= i < |segs| ==> CleanSegment(segs[i])
    ensures var r := Crumbs(segs, dynamicNames);
            forall i :: 0 <= i < |r| && r[i].link.Some? ==>
              Segments(r[i].link.value) == segs[..i + 1] && |Segments(r[i].link.value)| < |segs|
  {
    var r := Crumbs(segs, dynamicNames);
    forall i | 0 <= i < |r| && r[i].link.Some?
      ensures Segments(r[i].link.value) == segs[..i + 1]
    {
      RouteSegments(segs, i);
    }
  }

  /** The names the effect stores for a path, or None when it stores nothing
      (empty path, categories refused, or a missing field read that throws). */
  function ResolvedNames(segs: seq<string>, categoriesResponse: Envelope<seq<Category>>,
                         itemsResponse: Envelope<seq<Item>>): (r: Option<map<string, string>>)
    ensures r.Some? <==> && segs != [] && categoriesResponse.success
                         && Required(categoriesResponse.data).Value?
                         && !(ItemCrumbWanted(segs, Required(categoriesResponse.data).value)
                              && itemsResponse.success && Required(itemsResponse.data).TypeError?)
    ensures r.Some? ==> forall c :: c in Required(categoriesResponse.data).value ==> c.slug in r.value
    ensures r.Some? ==> var names := SlugNames(Required(categoriesResponse.data).value);
                        var found := ItemFound(segs, Required(categoriesResponse.data).value, itemsResponse);
                        && (forall k :: k in names && (found.None? || k != segs[1])
                                        ==> k in r.value && r.value[k] == names[k])
                        && (found.Some? ==> segs[1] in r.value && r.value[segs[1]] == found.value.title)
                        && (forall k :: k in r.value ==> k in names || (found.Some? && k == segs[1]))
  {
    if segs == [] || !categoriesResponse.success then None
    else match Required(categoriesResponse.data)
      case TypeError => None
      case Value(cats) =>
        var names := SlugNames(cats);
        if !ItemCrumbWanted(segs, cats) || !itemsResponse.success then Some(names)
        else match Required(itemsResponse.data)
          case TypeError => None
          case Value(items) =>
            match ItemBySlug(items, segs[1])
            case None => Some(names)
            case Some(it) => Some(names[segs[1] := it.title])
  }

  /** The item whose title the effect stores: the one the second segment names
      in the category's items, when the lookup runs and its request succeeds. */
  function ItemFound(segs: seq<string>, cats: seq<Category>, itemsResponse: Envelope<seq<Item>>)
    : (r: Option<Item>)
    ensures r.Some? <==> && ItemCrumbWanted(segs, cats) && itemsResponse.success
                         && Required(itemsResponse.data).Value?
                         && exists it :: it in Required(itemsResponse.data).value && it.slug == segs[1]
    ensures r.Some? ==> r.value in Required(itemsResponse.data).value && r.value.slug == segs[1]
  {
    if !ItemCrumbWanted(segs, cats) || !itemsResponse.success then None
    else match Required(itemsResponse.data)
      case TypeError => None
      case Value(items) =>
        var found := ItemBySlug(items, segs[1]);
        assert found.None? ==> forall it :: it in items ==> it.slug != segs[1];
        found
  }

  /** The item lookup runs for a path of two or more segments outside the admin
      area whose first segment is a known category slug. */
  predicate ItemCrumbWanted(segs: seq<string>, cats: seq<Category>)
  {
    |segs| >= 2 && segs[0] != "admin" && CategoryBySlug(cats, segs[0]).Some?
  }

  /** On an item page whose category and item are both found, the second crumb
      reads the item's title and the first the category's name (when the title and
      name are non-empty, the slugs differ, and no later category shares the slug). */
  lemma ItemPageCrumbs(categorySlug: string, itemSlug: string, cats: seq<Category>, k: nat,
                       items: seq<Item>, it: Item, message: string)
    requires CleanSegment(categorySlug) && CleanSegment(itemSlug) && categorySlug != "admin"
    requires categorySlug != itemSlug
    requires k < |cats| && cats[k].slug == categorySlug
    requires forall j :: k < j < |cats| ==> cats[j].slug != categorySlug
    requires it in items && it.slug == itemSlug
    requires forall x :: x in items && x != it ==> x.slug != itemSlug
    requires cats[k].name != "" && it.title != ""
    ensures var segs := Segments(ItemPath(categorySlug, itemSlug));
            var names := ResolvedNames(segs, Envelope(true, Present(Some(cats)), message),
                                       Envelope(true, Present(Some(items)), message));
            && segs == [categorySlug, itemSlug] && names.Some?
            && DisplayName(segs[0], names.value) == cats[k].name
            && DisplayName(segs[1], names.value) == it.title
  {
    ItemPathSegments(categorySlug, itemSlug);
    var segs := [categorySlug, itemSlug];
    var categoriesResponse := Envelope(true, Present(Some(cats)), message);
    var itemsResponse := Envelope(true, Present(Some(items)), message);
    assert Required(categoriesResponse.data) == Value(cats);
    assert Required(itemsResponse.data) == Value(items);
    assert ItemCrumbWanted(segs, cats) by {
      assert CategoryBySlug(cats, categorySlug).Some? by {
        assert cats[k].slug == categorySlug;
      }
    }
    assert ItemBySlug(items, itemSlug) == Some(it) by {
      var i :| 0 <= i < |items| && items[i] == it;
      assert items[i].slug == itemSlug;
    }
    var names := SlugNames(cats)[itemSlug := it.title];
    assert ResolvedNames(segs, categoriesResponse, itemsResponse) == Some(names);
    SlugNamesLastWins(cats, k);
    assert names[categorySlug] == cats[k].name;
  }

  /** The breadcrumb's state: the names fetched for the current path. */
  class BreadcrumbView {
    var dynamicNames: map<string, string>

    constructor ()
      ensures dynamicNames == map[]
    {
      dynamicNames := map[];
    }

    /** The effect run on each path change. The results say whether the
        categories were requested and for which category id the items were. */
    method FetchDynamicNames(pathname: string, categoriesResponse: Envelope<seq<Category>>,
                             itemsResponse: Envelope<seq<Item>>)
      returns (categoriesRequested: bool, itemsRequestedFor: Option<string>)
      modifies this
      ensures categoriesRequested <==> Segments(pathname) != []
      ensures var segs := Segments(pathname);
              itemsRequestedFor.Some? <==> (categoriesRequested && categoriesResponse.success
                                           && Required(categoriesResponse.data).Value?
                                           && ItemCrumbWanted(segs, Required(categoriesResponse.data).value))
      ensures itemsRequestedFor.Some? ==>
                itemsRequestedFor.value
                == CategoryBySlug(Required(categoriesResponse.data).value, Segments(pathname)[0]).value.id
      ensures dynamicNames
              == ResolvedNames(Segments(pathname), categoriesResponse, itemsResponse).GetOr(old(dynamicNames))
    {
      var segs := Segments(pathname);
      categoriesRequested := false;
      itemsRequestedFor := None;
      if |segs| == 0 {
        return;
      }
      categoriesRequested := true;
      if !categoriesResponse.success {
        return;
      }
      match Required(categoriesResponse.data) {
        case TypeError =>
          return;
        case Value(cats) =>
          var names := NamesBySlug(cats);
          if |segs| >= 2 && segs[0] != "admin" {
            var category := CategoryBySlug(cats, segs[0]);
            if category.Some? {
              itemsRequestedFor := Some(category.value.id);
              if itemsResponse.success {
                match Required(itemsResponse.data) {
                  case TypeError =>
                    return;
                  case Value(items) =>
                    var found := ItemBySlug(items, segs[1]);
                    if found.Some? {
                      names := names[segs[1] := found.value.title];
                    }
                }
              }
            }
          }
          dynamicNames := names;
      }
    }
  }
}
