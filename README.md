# Entertainment hub client: data-shaping core in Dafny

This project models the client-side logic of a React entertainment catalogue.
The catalogue has categories (movies, series, anime, games, ...) and items.
The model covers:

- public pages that resolve a category or item slug against the gateway's lists;
- the related-items selection;
- the three rating aggregations and the star filter;
- the breadcrumb's path segments and labels;
- the shared icon table with its emoji pass-through;
- the explore grid and the home page's hero cards;
- the admin screens: the item form and its save payload, the filtered and sorted item list, the category form and its gradient labels, the sidebar highlight, and the dashboard counts.

Each page's state (its `useState` hooks) is a Dafny `class`. Its handlers are
methods that `modify` that state. A page never performs I/O itself: a method
receives the gateway's answer as a parameter and returns what it would request.

- The public gateway catches every failure and answers with an envelope `{success, data, message}` (`Gateway.Envelope`).
- The admin gateway throws, so admin methods receive `Gateway.Outcome` (an envelope, or the thrown exception).
- `Gateway.Payload` distinguishes a missing `data`, a missing field, and a present field. This separates the three reads the code makes: `data.x.find` throws, `data.x || []` throws only without `data`, and `data?.x || []` never throws.

Pure code (lookups, mappings, label rewrites, sorting) is functions with
contracts and lemmas. The loops the code runs, such as deleting the non-positive
sub-scores or filling the slug-to-name map, are methods whose loop invariants
tie them to those functions.

Modules:

- `wrappers`, `seqs`, `text`: Option; filtering, counting, first match; string helpers (ASCII case mapping, substring search, split/join, decimal rendering).
- `stable_sort`: `Array.prototype.sort` as a stable insertion sort over a comparator.
- `gateway`, `catalog`, `resolve`: envelopes, records, slug lookup, related items, routes.
- `rating`: the public, live item page, backup item page and admin rating aggregations.
- `category_page`, `item_page`, `item_page_backup`: the public pages.
- `breadcrumb`, `icons`, `cards`, `explore`, `hero`: shared navigation and display components.
- `admin_items`, `admin_categories`, `sidebar`, `dashboard`: the admin area.

## Model

| member | source | states |
|---|---|---|
| Gateway.Or | src/pages/DynamicItemPage.jsx:64 | `a \|\| b` on strings: `a` when non-empty, else `b` |
| Gateway.Required | src/pages/DynamicCategoryPage.jsx:34-36 | reading `data.field` and using it throws exactly when `data` or the field is missing; otherwise the field's value |
| Gateway.FieldOrEmpty | src/admin/pages/CategoriesPage.jsx:34 | `data.field \|\| []` throws only without `data`; a missing field reads as [] |
| Gateway.OptionalFieldOrEmpty | src/admin/pages/ItemsPage.jsx:52 | `data?.field \|\| []` never throws: the field when present, else [] |
| Catalog.CategoryBySlug | src/pages/DynamicCategoryPage.jsx:34-36 | None iff no category has the slug; otherwise the first one with it (no earlier index matches) |
| Catalog.ItemBySlug | src/pages/DynamicItemPage.jsx:45-47 | None iff no item has the slug; otherwise the first one with it |
| Catalog.Others | src/pages/DynamicItemPage.jsx:56-57 | exactly the items whose `_id` differs from the found item's |
| Catalog.Related | src/pages/DynamicItemPage.jsx:56-58 | at most `cap` items, none with the found item's `_id`, all from the list, and the first `cap` such items |
| Catalog.RelatedInOrder | src/pages/DynamicItemPage.jsx:56-58 | the related items are a subsequence of the fetched list, in its order |
| Catalog.ItemPath | src/pages/DynamicItemPage.jsx:73-75 | the related item link is the category's route extended by "/" and the item slug |
| Catalog.CategoryPath | src/components/Hero.jsx:136-138 | a category route is one character longer than the id: "/" followed by the id |
| Resolve.LookupCategory | src/pages/DynamicItemPage.jsx:24-36 | a refusal fails with "Failed to fetch categories"; a missing list fails with a TypeError; otherwise found iff some category has the slug, and the first such |
| Resolve.LookupItem | src/pages/DynamicItemPage.jsx:40-52 | the same for the items of the category, with "Failed to fetch items" |
| Rating.DisplayedRating | src/pages/DynamicCategoryPage.jsx:71-84 | null without an object or without both `rating` and `ratings`; a numeric `rating` (0 included) wins; otherwise the sum of the four sub-scores, missing ones as 0, over 4 |
| Rating.AverageRating | src/pages/DynamicItemPage.jsx:77-86 | 0 without `ratings`, else the four sub-scores (missing ones as 0) summed and divided by 4 |
| Rating.BackupAverage | src/pages/DynamicItemPage_backup.jsx:182-193 | shown only when `ratings` is present, and then equal to the live page's average |
| Rating.AdminScore | src/admin/pages/ItemsPage.jsx:268-283 | 0 without `ratings`; the plain sum over 4 when all four sub-scores are set; NaN (None) when any is missing |
| Rating.VariantsAgree | src/pages/DynamicCategoryPage.jsx:71-84 | with all four sub-scores and no overall rating, the four aggregations give the same number |
| Rating.VariantsDiffer | src/pages/DynamicCategoryPage.jsx:73 | an overall rating is seen only by the public category page; a missing sub-score makes the admin score NaN while the others count it as 0 |
| Rating.AverageWithinScale | src/pages/DynamicItemPage.jsx:77-86 | sub-scores within [0, 5] give an average within [0, 5] |
| Rating.Round | src/pages/DynamicCategoryPage.jsx:94 | `Math.round`: the integer n with n - 1/2 <= r < n + 1/2 |
| Rating.Examples | src/pages/DynamicCategoryPage.jsx:71-94 | worked cases: 4.4 rounds to 4, 4.5 and 4.6 to 5, 3.5 to 4, -2.5 to -2; an item rated 0 shows 0; a single sub-score of 4 averages 1, none averages 0 |
| CategoryPage.RatingFiltered | src/pages/DynamicCategoryPage.jsx:87-98 | filter off: the list unchanged; filter on: an item is kept iff it has a displayed rating that rounds to the value; never longer than the list |
| CategoryPage.RatingFilteredInOrder | src/pages/DynamicCategoryPage.jsx:91-96 | the filtered list is a subsequence of the fetched list |
| CategoryPage.UnratedDropped | src/pages/DynamicCategoryPage.jsx:92-93 | an item without any rating never passes an enabled filter |
| CategoryPage.FilterAtFiveExample | src/pages/DynamicCategoryPage.jsx:91-94 | ratings 4.4, 4.6, 3.5 under the 5-star filter keep only the 4.6 item |
| CategoryPage.CountLabel | src/pages/DynamicCategoryPage.jsx:182-185 | "<shown> of <total> item" then "s" iff total != 1, then "available" or "matching filter" per the filter switch |
| CategoryPage.CategoryPageView.constructor | src/pages/DynamicCategoryPage.jsx:10-19 | the initial state: no category, empty lists, loading, filter off at 0 |
| CategoryPage.CategoryPageView.FetchCategoryAndItems | src/pages/DynamicCategoryPage.jsx:22-68 | an empty slug does nothing; a refusal or missing list sets the thrown message (else "Failed to load category"); a missing slug sets "Category not found"; a found category is stored and its items requested; the items (or [] on refusal) are stored and `filteredItems` is re-filtered by the chosen rating filter; loading ends |
| CategoryPage.CategoryPageView.ApplyRatingFilter | src/pages/DynamicCategoryPage.jsx:87-98 | the displayed list becomes the rating filter of the items |
| CategoryPage.CategoryPageView.SetRatingFilter | src/pages/DynamicCategoryPage.jsx:241-270 | choosing a star value or "All Ratings" stores the filter and recomputes the displayed list |
| CategoryPage.CategoryPageView.HeadingGradient | src/pages/DynamicCategoryPage.jsx:162-164 | the category's gradient, else the default one; never empty |
| CategoryPage.CategoryPageView.HeadingIcon | src/pages/DynamicCategoryPage.jsx:165-168 | a known icon id shows its SVG icon; otherwise the corrected `getIcon`'s result (an emoji as is, else the folder), which is never empty, so the "📁" fallback never applies |
| CategoryPage.CategoryPageView.Header | src/pages/DynamicCategoryPage.jsx:182-185 | the count line for the current lists and filter |
| ItemPage.ItemPageView.constructor | src/pages/DynamicItemPage.jsx:9-14 | no item or category, no related items, loading, not revealed |
| ItemPage.ItemPageView.FetchItemData | src/pages/DynamicItemPage.jsx:18-71 | per lookup outcome: the error (thrown message, "Category not found", "Item not found"), the stored category, the item and up to 8 related items; revealed only on success; loading ends |
| ItemPage.ItemPageView.ShowItem | src/pages/DynamicItemPage.jsx:40-61 | once the category is found: a refused or unreadable item list is handed back as the thrown message; a missing slug sets "Item not found"; a found item is shown with its first 8 related items and the page revealed; otherwise the item, related list and reveal flag are unchanged |
| ItemPageBackup.BackupItemPageView.constructor | src/pages/DynamicItemPage_backup.jsx:9-14 | the same initial state as the live page |
| ItemPageBackup.BackupItemPageView.FetchItemData | src/pages/DynamicItemPage_backup.jsx:16-73 | runs only with both slugs non-empty; the same outcomes as the live page, related capped at 4, and revealed on every path |
| ItemPageBackup.BackupItemPageView.AverageBadge | src/pages/DynamicItemPage_backup.jsx:182-193 | the badge appears iff the item has sub-scores, and shows the live page's average |
| Icons.KeyName | src/utils/icons.jsx:2-77 | each of the ten keys has a non-empty lower-case id |
| Icons.KeyOf | src/utils/icons.jsx:2-77 | an id found in the table is the name of the key found |
| Icons.KeyOfName | src/utils/icons.jsx:2-77 | every key is found under its own id: the table is a bijection |
| Icons.Utf16Length | src/utils/icons.jsx:84 | `length` counts UTF-16 units: between one and two per character |
| Icons.HasEmoji | src/utils/icons.jsx:85 | true iff some character lies in one of the three emoji ranges |
| Icons.GetIconAsWritten | src/utils/icons.jsx:80-92 | as written: an emoji id passes through, and an inherited member name such as "constructor" yields that member, not the folder |
| Icons.GetIcon | src/utils/icons.jsx:80-92 | an emoji id (at most four UTF-16 units with an emoji) passes through; a table id gives its icon; anything else the folder; never an inherited member |
| Icons.NamedIconsResolve | src/utils/icons.jsx:90-91 | every table id resolves to its own icon (no id looks like an emoji) |
| Icons.GetIconNeverEmpty | src/pages/DynamicCategoryPage.jsx:168 | `getIcon` never returns an empty value |
| Icons.AsWrittenAgreesElsewhere | src/utils/icons.jsx:91 | both readings agree on every id that is not an inherited member name |
| Icons.ConstructorIsNotAnIcon | src/utils/icons.jsx:91 | "constructor" is not a table id, yet the lookup as written returns the inherited member; the own-key reading gives the folder |
| Icons.EmojiExamples | src/utils/icons.jsx:82-88 | one clapper-board emoji passes through; three of them (six units) fall back to the folder |
| Breadcrumb.Segments | src/components/Breadcrumb.jsx:69 | the non-empty, slash-free pieces of the path, in order: every non-empty piece is kept, and the segments plus the empty pieces make up all the pieces |
| Breadcrumb.SegmentsOfPath | src/components/Breadcrumb.jsx:69 | "/" + clean segments joined by "/" splits back into exactly those segments |
| Breadcrumb.SplitOfPath | src/components/Breadcrumb.jsx:69 | such a path splits into one empty piece before the first slash, then the segments |
| Breadcrumb.ItemPathSegments | src/components/Breadcrumb.jsx:39-41 | an item page's path yields exactly the category slug and the item slug |
| Breadcrumb.RouteTo | src/components/Breadcrumb.jsx:92 | a crumb's link starts with "/" |
| Breadcrumb.RouteExtends | src/components/Breadcrumb.jsx:92 | each crumb's link is the previous link + "/" + its segment |
| Breadcrumb.RouteSegments | src/components/Breadcrumb.jsx:91-93 | following a crumb's link gives the segments up to it; the last crumb gives the current path's segments |
| Breadcrumb.StaticName | src/components/Breadcrumb.jsx:9-18 | the eight fixed labels, all non-empty |
| Breadcrumb.DisplayName | src/components/Breadcrumb.jsx:96-99 | a fetched non-empty name first, then the fixed label, then the capitalised segment; non-empty for a non-empty segment |
| Breadcrumb.SlugNames | src/components/Breadcrumb.jsx:34-36 | the slug-to-name map has exactly the slugs of the categories as keys, each mapped to the name of a category with that slug |
| Breadcrumb.SlugNamesLastWins | src/components/Breadcrumb.jsx:34-36 | a slug is named after the last category carrying it |
| Breadcrumb.NamesBySlug | src/components/Breadcrumb.jsx:31-36 | the `forEach` loop builds exactly that map |
| Breadcrumb.ResolvedNames | src/components/Breadcrumb.jsx:20-60 | names are stored iff the path is non-empty, categories come back, and no item read throws; every category slug keeps its category name, except the second segment, which gets the found item's title; no other key appears |
| Breadcrumb.ItemFound | src/components/Breadcrumb.jsx:39-54 | the item is found iff the lookup runs (two or more segments, not admin, category known), its request succeeds, and an item carries the second segment's slug; it is that item |
| Breadcrumb.Crumbs | src/components/Breadcrumb.jsx:90-123 | one crumb per segment, labelled by the display name; exactly the last crumb (`isLast`) is unlinked, every other links to the route up to it |
| Breadcrumb.CrumbLinksLeadUp | src/components/Breadcrumb.jsx:91-93 | for clean segments, each linked crumb leads to the path of the segments up to it, strictly shorter than the current path |
| Breadcrumb.ItemPageCrumbs | src/components/Breadcrumb.jsx:20-99 | on an item page whose category slug no later category repeats and whose item slug is unique, with non-empty names, the crumbs read the category's name and the item's title |
| Breadcrumb.BreadcrumbView.constructor | src/components/Breadcrumb.jsx:7 | no fetched names |
| Breadcrumb.BreadcrumbView.FetchDynamicNames | src/components/Breadcrumb.jsx:20-67 | categories are requested iff the path has segments; items only for a non-admin path of two or more segments whose first is a known slug; the names become the resolved ones, or stay as they were |
| StableSort.Sort | src/admin/pages/ItemsPage.jsx:260 | the result is a permutation of the input |
| StableSort.SortSorted | src/admin/pages/ItemsPage.jsx:260 | with a consistent comparator, the result is sorted |
| StableSort.SortStable | src/admin/pages/ItemsPage.jsx:260 | with a consistent comparator, elements that compare equal keep their order |
| Text.Compare | src/admin/pages/ItemsPage.jsx:267 | `localeCompare` as code-point order: a sign in {-1, 0, 1}, zero iff the strings are equal |
| Text.CompareAntisymmetric | src/admin/pages/ItemsPage.jsx:267 | swapping the two titles negates the comparison |
| Text.CompareTransitive | src/admin/pages/ItemsPage.jsx:267 | the title order is transitive, as `sort` needs |
| Text.JoinSplit | src/components/Breadcrumb.jsx:69 | joining the pieces of `split("/")` with "/" gives back the path |
| Text.SplitJoin | src/components/Breadcrumb.jsx:92 | splitting a "/"-join of slash-free pieces gives back the pieces |
| Text.ToLowerIdempotent | src/admin/pages/ItemsPage.jsx:251-253 | lower-casing twice is lower-casing once |
| Text.ContainsIff | src/admin/pages/ItemsPage.jsx:251-253 | `includes` holds iff the term occurs at some position |
| Text.DecimalRoundTrip | src/pages/ExplorePage.jsx:26 | reading a rendered count back gives the count |
| AdminItems.Coerce | src/admin/pages/ItemsPage.jsx:127-130 | `Number(x) \|\| undefined`: a blank or zero score becomes undefined, anything else is kept |
| AdminItems.StoredScores | src/admin/pages/ItemsPage.jsx:117-144 | null iff no sub-score is positive; otherwise keys exactly the positive scores, with their values |
| AdminItems.PruneScores | src/admin/pages/ItemsPage.jsx:125-140 | the deletion loop over the keys leaves exactly the stored scores |
| AdminItems.ValidKeysNonEmpty | src/admin/pages/ItemsPage.jsx:118-123 | `hasValidRatings` holds iff the set of keys with a positive score is non-empty (both directions) |
| AdminItems.SaveKeepsAverage | src/admin/pages/ItemsPage.jsx:117-144 | with no negative score, the saved scores read back give the same live-page average as the form |
| Text.Compact | src/admin/pages/ItemsPage.jsx:110-114 | `filter(Boolean)` keeps exactly the non-empty entries, in order (a subsequence), none empty, and it is shorter by exactly the number of empty entries |
| Text.CompactClean | src/admin/pages/ItemsPage.jsx:110-114 | a list without empty entries is unchanged |
| Text.CompactDropsBlank | src/admin/pages/ItemsPage.jsx:110-114 | a leading empty entry is dropped by the compaction |
| AdminItems.BuildPayload | src/admin/pages/ItemsPage.jsx:107-144 | all five lists compacted, the screenshots followed by the uploads, the stored scores, and every other field copied from the form |
| AdminItems.DefaultPayload | src/admin/pages/ItemsPage.jsx:107-144 | saving the untouched default form sends empty lists, no ratings and status "draft" |
| AdminItems.OrBlankRow | src/admin/pages/ItemsPage.jsx:195-202 | the item's list when it is non-empty, exactly one blank row when it is empty |
| AdminItems.EditForm | src/admin/pages/ItemsPage.jsx:187-210 | the form mirrors the item: the date's first 10 characters, the three row lists through `OrBlankRow`, the item's ratings or empty ones, the category's id, every other field copied |
| AdminItems.EditSaveRoundTrip | src/admin/pages/ItemsPage.jsx:187-210 | editing an item and saving it unchanged sends back its own lists and sub-scores |
| AdminItems.OrBlankRowCompacts | src/admin/pages/ItemsPage.jsx:195-202 | a list without empty entries comes back unchanged through the editor's blank row and the save's compaction |
| AdminItems.ScoresReadBack | src/admin/pages/ItemsPage.jsx:117-144 | clean sub-scores shown in the editor are stored and read back unchanged; no sub-scores stay none |
| AdminItems.MutationFor | src/admin/pages/ItemsPage.jsx:146-151 | update of the edited item's id iff one is being edited, else create |
| AdminItems.FilterItems | src/admin/pages/ItemsPage.jsx:244-258 | an item is listed iff it is present and matches both the search and the category; the list keeps the order of the present entries (a subsequence of `Present`) and has one entry per matching present entry |
| AdminItems.Present | src/admin/pages/ItemsPage.jsx:244-249 | exactly the non-null entries, in order (wrapped back, a subsequence of the list), one per non-null entry |
| AdminItems.NoFilterKeepsAll | src/admin/pages/ItemsPage.jsx:244-258 | an empty search and no category list every present item, in order |
| AdminItems.SearchIgnoresTermCase | src/admin/pages/ItemsPage.jsx:251-253 | the search does not depend on the case of the term |
| AdminItems.RatingOrder | src/admin/pages/ItemsPage.jsx:268-283 | the higher score first; NaN when either score is missing |
| AdminItems.VisibleItems | src/admin/pages/ItemsPage.jsx:244-288 | the visible list is a permutation of the filtered list |
| AdminItems.ComparatorConsistent | src/admin/pages/ItemsPage.jsx:260-288 | the date, title and unknown-key comparators are consistent orders; the rating one when every item has all scores |
| AdminItems.VisibleSorted | src/admin/pages/ItemsPage.jsx:260-288 | the visible list is sorted by the chosen comparator whenever that is consistent |
| AdminItems.SortedByKey | src/admin/pages/ItemsPage.jsx:260-288 | sorting any list whose key order is consistent leaves it sorted by that comparator |
| AdminItems.VisibleOrderMeaning | src/admin/pages/ItemsPage.jsx:261-267 | "newest" puts later timestamps first, "oldest" earlier ones, "title" in code-point order, "rating" (all sub-scores present) the higher average first |
| AdminItems.SortedOrderMeaning | src/admin/pages/ItemsPage.jsx:260-288 | the same meaning of each sort key, for the sorted copy of any list |
| AdminItems.VisibleStable | src/admin/pages/ItemsPage.jsx:260-288 | items the comparator ties keep their filtered order |
| AdminItems.UnknownSortKeepsOrder | src/admin/pages/ItemsPage.jsx:285-286 | an unknown sort key leaves the filtered order |
| AdminItems.StatusCounts | src/admin/pages/ItemsPage.jsx:446-466 | total = visible count; active and draft are the numbers of positions with that status; active + draft <= total |
| AdminItems.FetchedItems | src/admin/pages/ItemsPage.jsx:46-65 | `data?.items \|\| []` on success, else [] |
| AdminItems.FetchError | src/admin/pages/ItemsPage.jsx:46-65 | a refusal's message (else "Failed to fetch items"), the thrown-case text, or the earlier error on success |
| AdminItems.ItemsPageView.constructor | src/admin/pages/ItemsPage.jsx:8-38 | the initial state: empty lists, loading, default form, sort "newest" |
| AdminItems.ItemsPageView.FetchItems | src/admin/pages/ItemsPage.jsx:46-65 | items and error as above; loading ends |
| AdminItems.ItemsPageView.FetchCategories | src/admin/pages/ItemsPage.jsx:67-81 | the category list on success, [] on refusal or throw |
| AdminItems.ItemsPageView.HandleEdit | src/admin/pages/ItemsPage.jsx:187-215 | the edited item, its form, the modal open, no form error |
| AdminItems.ItemsPageView.ResetForm | src/admin/pages/ItemsPage.jsx:217-241 | the default form, nothing edited, modal closed, no form error |
| AdminItems.ItemsPageView.SaveRequest | src/admin/pages/ItemsPage.jsx:107-151 | the request is the mutation for the edited item and the built payload |
| AdminItems.ItemsPageView.Save | src/admin/pages/ItemsPage.jsx:107-161 | the request built from the form as it was, then the state the answer leaves (as HandleSaveResponse) |
| AdminItems.ItemsPageView.Submit | src/admin/pages/ItemsPage.jsx:83-168 | a failed upload sets the save error and sends nothing; otherwise the request is sent and the answer handled; uploading ends |
| AdminItems.ItemsPageView.HandleSaveResponse | src/admin/pages/ItemsPage.jsx:153-165 | success reloads and resets; a refusal sets its message or "Failed to save item"; a throw "An error occurred while saving the item" |
| AdminItems.ItemsPageView.Visible | src/admin/pages/ItemsPage.jsx:244-288 | the list shown for the current search, category and sort |
| AdminCategories.IconOptionIndex | src/admin/pages/CategoriesPage.jsx:20-23 | the first option with the id, else the first option (folder) |
| AdminCategories.GradientLabel | src/admin/pages/CategoriesPage.jsx:408-410 | the label contains no dash and is no longer than the gradient |
| AdminCategories.GradientLabels | src/admin/pages/CategoriesPage.jsx:116-123 | the six options read "blue purple", "green blue", "purple pink", "yellow red", "indigo purple", "pink rose" |
| AdminCategories.LabelOf | src/admin/pages/CategoriesPage.jsx:409-410 | any "from-a-N to-b-M" with plain colour words reads "a b" |
| AdminCategories.StripWord | src/admin/pages/CategoriesPage.jsx:409 | a word not ending in "from" or "to" passes the token scan unchanged |
| AdminCategories.StripNumber | src/admin/pages/CategoriesPage.jsx:409 | a dash and all the digits after it are removed |
| AdminCategories.EditCategoryForm | src/admin/pages/CategoriesPage.jsx:92-102 | the category's fields, with the default gradient when it has none |
| AdminCategories.CategoryMutationFor | src/admin/pages/CategoriesPage.jsx:50-60 | update of the edited category's id iff one is being edited, else create |
| AdminCategories.SaveNotice | src/admin/pages/CategoriesPage.jsx:46-73 | the alert: updated/created on success, the refusal's message or "Failed to update/create category", the fixed text on a throw |
| AdminCategories.CategoriesPageView.constructor | src/admin/pages/CategoriesPage.jsx:5-16 | empty list, loading, modal closed, default form |
| AdminCategories.CategoriesFetchError | src/admin/pages/CategoriesPage.jsx:29-44 | the error a load leaves: the refusal's message (else the fixed text), the fixed text on a throw or a missing `data`, the earlier error on a readable success; a newly set error is never empty |
| AdminCategories.CategoriesPageView.FetchCategories | src/admin/pages/CategoriesPage.jsx:29-44 | `data.categories \|\| []` on success; a missing `data` or a throw sets "Failed to fetch categories"; a refusal its message; the error is `CategoriesFetchError` of the outcome; loading ends |
| AdminCategories.CategoriesPageView.HandleEdit | src/admin/pages/CategoriesPage.jsx:92-102 | the edited category, its form, the modal open |
| AdminCategories.CategoriesPageView.ResetForm | src/admin/pages/CategoriesPage.jsx:104-114 | the default form, nothing edited, modal closed |
| AdminCategories.CategoriesPageView.Submit | src/admin/pages/CategoriesPage.jsx:46-73 | the request per editing state and the alert; on success the reload's list and error (`CategoriesFetchError` of the reload) and the reset form; otherwise nothing changes |
| Sidebar.ActiveFlags | src/admin/components/Sidebar.jsx:63-68 | one highlight flag per entry, each the entry's `isActive` |
| Sidebar.DashboardOnlyExact | src/admin/components/Sidebar.jsx:64-66 | the dashboard is highlighted iff the path is exactly "/admin" |
| Sidebar.ActiveOnOwnPath | src/admin/components/Sidebar.jsx:63-68 | each entry is highlighted on its own path, the others on any string extension of it |
| Sidebar.ItemsPrefixQuirk | src/admin/components/Sidebar.jsx:67 | "/admin/items/x" and "/admin/itemsfoo" both highlight Items |
| Sidebar.AtMostOneActive | src/admin/components/Sidebar.jsx:6-68 | no path highlights two entries |
| Cards.CardId | src/pages/ExplorePage.jsx:21 | the slug when non-empty, else the `_id` |
| Cards.CardIcon | src/pages/ExplorePage.jsx:24 | the icon, else "folder"; never empty |
| Cards.CardGradient | src/pages/ExplorePage.jsx:25 | the gradient, else the default; never empty |
| Explore.CountText | src/pages/ExplorePage.jsx:26 | decimal digits whose value is the item count, "0" when absent |
| Explore.ExploreCards | src/pages/ExplorePage.jsx:20-28 | one card per category, same order, with the id, icon, gradient and count rules |
| Explore.EmojiOfIconKeys | src/pages/ExplorePage.jsx:125-135 | only film, tv, gamepad and anime get their own, distinct emoji; the other six table ids show the folder |
| Explore.MissingIconShowsFolder | src/pages/ExplorePage.jsx:24 | a category without an icon shows the folder emoji |
| Explore.ExploreView.constructor | src/pages/ExplorePage.jsx:8-11 | not revealed, no cards, loading, no error |
| Explore.ExploreView.FetchCategories | src/pages/ExplorePage.jsx:13-43 | cards on success; a missing list "Failed to fetch categories"; a refusal its message or that text; loading ends and the page is revealed on every path; the grid shows iff the load succeeded |
| Hero.HeroCards | src/components/Hero.jsx:83-92 | the first four categories, in order, as cards with the id, icon and gradient rules |
| Hero.HeroIcon | src/components/Hero.jsx:201 | never heart or globe, which the hero's table lacks |
| Hero.HeroIconOfKeys | src/components/Hero.jsx:201 | table ids draw their own icon except heart and globe; unknown ids draw the folder |
| Hero.FallbackCardsResolve | src/components/Hero.jsx:98-127 | four named cards with distinct ids, each with its own icon |
| Hero.ClickTarget | src/components/Hero.jsx:136-138 | a click goes to the category route of the card's id |
| Hero.CardLeadsToCategory | src/components/Hero.jsx:136-138 | a card made from a category with a slug leads to that category's page |
| Hero.HeroView.constructor | src/components/Hero.jsx:73-74 | not revealed, no cards |
| Hero.HeroView.FetchCategories | src/components/Hero.jsx:77-134 | a refusal keeps the cards; a readable list gives the first four; a throwing read gives the fixed four; revealed on every path |
| Dashboard.CategoryCountsOf | src/admin/pages/Dashboard.jsx:22-27 | total = list length, active = number with status "active", active <= total |
| Dashboard.ActivePlusInactive | src/admin/pages/Dashboard.jsx:24-26 | active and non-active entries add up to the total |
| Dashboard.CaughtMessage | src/admin/pages/Dashboard.jsx:41 | an `Error`'s message, else "Failed to load stats" |
| Dashboard.DashboardView.constructor | src/admin/pages/Dashboard.jsx:5-10 | zero counts, featured 0, loading, no error |
| Dashboard.DashboardView.FetchStats | src/admin/pages/Dashboard.jsx:13-44 | both successful and readable: the new counts replace the record (featured dropped, loading off, no error); a refusal changes nothing; a throw keeps the counts, ends loading and stores the message |

## Left out

- Network, JSON and the two gateway modules: each method takes the envelope or exception it would have received.
- Timers: `setTimeout(() => setIsLoaded(true), ...)` sets the flag at once in the model.
- The dashboard's 60-second refresh interval: each call of `FetchStats` is one refresh.
- Alerts and confirmation dialogs (other than the category save's alert text), the delete handlers, and the view toggle.
- Screenshot upload: `AdminItems.ItemsPageView.Submit` takes the uploaded URLs (or the failure) as a parameter, and the `screenshotsFiles` state is not modelled.
- Outside-click listeners, the dropdown state and all JSX markup, CSS and animation.
- Date and number formatting (`new Date`, `toFixed`): a timestamp is an abstract integer.
- Floating point: ratings are exact reals. NaN appears only in the admin rating comparator (as None).
- Case mapping and `localeCompare`: ASCII only, and code-point order.
- The items page, breadcrumb and hero lookups (`dynamicNames[x]`, `breadcrumbNames[x]`, `ModernIcons[x]`) are modelled as own-key lookups. Like `getIcon` (see Findings), they would also find inherited member names.
- Records with a null `category` (where `handleEdit` would throw) and items without titles (where render would throw).
- `Promise.all`'s choice between two rejections: the dashboard receives one rejection reason.
- `AdminItems.VisibleSorted`: for the "rating" key with an item lacking a sub-score, the comparator returns NaN. Sortedness is then not claimed, only that the result is a permutation of the filtered list.
- `AdminCategories.GradientLabel`: the general contract states only "no dash, no longer". The exact labels are proved for the six options and for every "from-a-N to-b-M" with plain colour words, not for arbitrary strings.
- CategoryPage.CategoryPageView.HeadingIcon: built on the corrected own-key `Icons.GetIcon`. For an id naming an inherited member ("constructor"), the code as written shows that member instead of the folder (see Findings and `Icons.GetIconAsWritten`).
- AdminItems.FilterItems: every item has a description string. A present item without a `description` whose title misses the search term would make the filter throw (src/admin/pages/ItemsPage.jsx:251-253); that throw is not modelled.
- The TypeError text: reading a field of a missing `data` is modelled with one stand-in message (`Gateway.TypeErrorText`). A JavaScript engine's real message names the property and says "undefined" or "null" (for example "Cannot read properties of undefined (reading 'stats')"). So the exact `error.message` that `Dashboard.DashboardView.FetchStats` and `CategoryPage.CategoryPageView.FetchCategoryAndItems` store for that case is not modelled, only that it is that throw's message.
- Route matching in the router and the presentation-only pages are outside this model.

## Findings

| source | as written | input that shows it | evidently intended | confidence | as-written member | corrected member |
|---|---|---|---|---|---|---|
| src/utils/icons.jsx:91 | `iconMap[iconId] \|\| iconMap.folder` reads a plain object, so ids naming members every object inherits are found too | icon id "constructor" (also "toString", "valueOf", ...) returns `Object` instead of an icon, and the category page's `\|\| "📁"` fallback does not apply | an id outside the table gets the folder icon, as `isSVGIcon`'s own-key check already assumes | not executed; follows from JavaScript property lookup | Icons.GetIconAsWritten, Icons.ConstructorIsNotAnIcon | Icons.GetIcon |
