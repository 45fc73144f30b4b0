/** The admin categories screen: the category list, the create/edit form with
    its defaults, the icon picker's lookup and the gradient picker's labels. */
module AdminCategories {
  import opened Wrappers
  import opened Catalog
  import opened Gateway
  import Text

  /** `formData`. */
  datatype CategoryForm = CategoryForm(name: string, description: string, icon: string,
                                       gradient: string, status: string)

  const DefaultGradient: string := "from-blue-500 to-purple-600"

  /** The form as first rendered and after `resetForm`. */
  const DefaultCategoryForm: CategoryForm := CategoryForm("", "", "folder", DefaultGradient, "active")

  /** The request a save makes. */
  datatype CategoryMutation = Create(form: CategoryForm) | Update(id: string, form: CategoryForm)

  /** A gradient class pair "from-<a>-500 to-<b>-600". */
  function GradientOption(a: string, b: string): string
  {
    "from-" + a + "-500 to-" + b + "-600"
  }

  /** `gradientOptions`: "from-blue-500 to-purple-600", "from-green-500 to-blue-600",
      "from-purple-500 to-pink-600", "from-yellow-500 to-red-600",
      "from-indigo-500 to-purple-600", "from-pink-500 to-rose-600". */
  const GradientOptions: seq<string> := [
    GradientOption("blue", "purple"), GradientOption("green", "blue"), GradientOption("purple", "pink"),
    GradientOption("yellow", "red"), GradientOption("indigo", "purple"), GradientOption("pink", "rose")]

  /** The ids of `iconOptions`, in order; the first, "folder", is the default. */
  const IconOptionIds: seq<string> :=
    ["folder", "film", "tv", "gamepad", "anime", "music", "book", "star", "heart", "globe"]

  /** `getIconSVG`: the position of the first option with the id, else the first option. */
  function IconOptionIndex(id: string): (r: nat)
    ensures r < |IconOptionIds|
    ensures id in IconOptionIds ==> IconOptionIds[r] == id && forall j :: 0 <= j < r ==> IconOptionIds[j] != id
    ensures id !in IconOptionIds ==> r == 0
  {
    FirstMatch(IconOptionIds, id, 0)
  }

  function FirstMatch(ids: seq<string>, id: string, from: nat): (r: nat)
    requires from <= |ids| && |ids| > 0
    requires forall j :: 0 <= j < from ==> ids[j] != id
    ensures r < |ids|
    ensures id in ids ==> ids[r] == id && forall j :: 0 <= j < r ==> ids[j] != id
    ensures id !in ids ==> r == 0
    decreases |ids| - from
  {
    if from == |ids| then
      assert id !in ids;
      0
    else if ids[from] == id then from
    else FirstMatch(ids, id, from + 1)
  }

  /** The run of digits at the front of `s` removed. */
  function DropDigits(s: string): (r: string)
    ensures |r| <= |s| && r == s[|s| - |r|..]
    ensures r == [] || !Text.IsDigit(r[0])
  {
    if s != [] && Text.IsDigit(s[0]) then DropDigits(s[1..]) else s
  }

  /** `.replace(/from-|to-|-\d+/g, "")`: left to right, each place tries "from-",
      then "to-", then a dash followed by digits; anything else is kept. */
  function StripTokens(s: string): (r: string)
    ensures |r| <= |s|
    decreases |s|
  {
    if FromAt(s) then StripTokens(s[5..])
    else if ToAt(s) then StripTokens(s[3..])
    else if |s| >= 2 && s[0] == '-' && Text.IsDigit(s[1]) then StripTokens(DropDigits(s[1..]))
    else if s == [] then []
    else [s[0]] + StripTokens(s[1..])
  }

  /** `s` starts with "from-". */
  predicate FromAt(s: string)
  {
    |s| >= 5 && s[0] == 'f' && s[1] == 'r' && s[2] == 'o' && s[3] == 'm' && s[4] == '-'
  }

  /** `s` starts with "to-". */
  predicate ToAt(s: string)
  {
    |s| >= 3 && s[0] == 't' && s[1] == 'o' && s[2] == '-'
  }

  /** `.replace(/-/g, " ")`. */
  function DashesToSpaces(s: string): (r: string)
    ensures |r| == |s|
    ensures forall i :: 0 <= i < |r| ==> r[i] != '-'
    ensures forall i :: 0 <= i < |r| && s[i] != '-' ==> r[i] == s[i]
  {
    if s == [] then [] else [if s[0] == '-' then ' ' else s[0]] + DashesToSpaces(s[1..])
  }

  /** The label of a gradient option. */
  function GradientLabel(g: string): (r: string)
    ensures '-' !in r
    ensures |r| <= |g|
  {
    var r := DashesToSpaces(StripTokens(g));
    assert forall i :: 0 <= i < |r| ==> r[i] != '-';
    r
  }

  /** The two colour words of each gradient option, in order. */
  const GradientWords: seq<(string, string)> := [
    ("blue", "purple"), ("green", "blue"), ("purple", "pink"),
    ("yellow", "red"), ("indigo", "purple"), ("pink", "rose")]

  /** Each option reads as its two colour words: "blue purple", "green blue", ... */
  lemma GradientLabels()
    ensures |GradientWords| == |GradientOptions|
    ensures forall i :: 0 <= i < |GradientOptions| ==>
              GradientLabel(GradientOptions[i]) == GradientWords[i].0 + " " + GradientWords[i].1
  {
    GradientWordsPlain();
    GradientOptionsShape();
    forall i | 0 <= i < |GradientOptions|
      ensures GradientLabel(GradientOptions[i]) == GradientWords[i].0 + " " + GradientWords[i].1
    {
      OptionLabel(GradientWords[i].0, GradientWords[i].1);
    }
  }

  lemma GradientWordsPlain()
    ensures forall i :: 0 <= i < |GradientWords| ==> PlainWord(GradientWords[i].0) && PlainWord(GradientWords[i].1)
  {
    ColourWordsPlain();
    forall i | 0 <= i < |GradientWords|
      ensures PlainWord(GradientWords[i].0) && PlainWord(GradientWords[i].1)
    {
      assert i == 0 || i == 1 || i == 2 || i == 3 || i == 4 || i == 5;
    }
  }

  lemma ColourWordsPlain()
    ensures PlainWord("blue") && PlainWord("purple") && PlainWord("green") && PlainWord("pink")
    ensures PlainWord("yellow") && PlainWord("red") && PlainWord("indigo") && PlainWord("rose")
  {
    ColourWordsPlainFirst();
    ColourWordsPlainSecond();
  }

  lemma ColourWordsPlainFirst()
    ensures PlainWord("blue") && PlainWord("purple") && PlainWord("green") && PlainWord("pink")
  {
    PlainByEnding("blue");
    PlainByEnding("purple");
    PlainByEnding("green");
    PlainByEnding("pink");
  }

  lemma ColourWordsPlainSecond()
    ensures PlainWord("yellow") && PlainWord("red") && PlainWord("indigo") && PlainWord("rose")
  {
    PlainByEnding("yellow");
    PlainByEnding("red");
    PlainByEnding("indigo");
    PlainByEnding("rose");
  }

  /** A word of letters ending in neither "to" nor "om" is plain. */
  lemma PlainByEnding(w: string)
    requires |w| >= 2 && Letters(w)
    requires !(w[|w| - 2] == 't' && w[|w| - 1] == 'o') && !(w[|w| - 2] == 'o' && w[|w| - 1] == 'm')
    ensures PlainWord(w)
  {
    var e := w[|w| - 2..];
    assert e[0] == w[|w| - 2] && e[1] == w[|w| - 1];
    assert e != "to" by {
      if e[0] == 't' {
        assert e[1] != "to"[1];
      } else {
        assert e[0] != "to"[0];
      }
    }
    if |w| >= 4 {
      var f := w[|w| - 4..];
      assert f[2] == w[|w| - 2] && f[3] == w[|w| - 1];
      assert f != "from" by {
        if f[2] == 'o' {
          assert f[3] != "from"[3];
        } else {
          assert f[2] != "from"[2];
        }
      }
    }
  }

  lemma GradientOptionsShape()
    ensures |GradientWords| == |GradientOptions|
    ensures forall i :: 0 <= i < |GradientOptions| ==>
              GradientOptions[i] == GradientOption(GradientWords[i].0, GradientWords[i].1)
  {
    forall i | 0 <= i < |GradientOptions|
      ensures GradientOptions[i] == GradientOption(GradientWords[i].0, GradientWords[i].1)
    {
      assert i == 0 || i == 1 || i == 2 || i == 3 || i == 4 || i == 5;
    }
  }

  /** An option of the shape "from-a-500 to-b-600". */
  lemma OptionLabel(a: string, b: string)
    requires PlainWord(a) && PlainWord(b)
    ensures GradientLabel(GradientOption(a, b)) == a + " " + b
  {
    assert Digits("500") && Digits("600");
    assert "from-" + a + "-" + "500" + (" to-" + b + "-" + "600") == GradientOption(a, b);
    LabelOf(a, b, "500", "600");
  }

  predicate Letters(w: string)
  {
    forall i :: 0 <= i < |w| ==> Text.IsLower(w[i])
  }

  /** A word of lower-case letters that the token scan passes through unchanged:
      it cannot end in "to" or "from", so no token starts inside it. */
  predicate PlainWord(w: string)
  {
    w != [] && Letters(w) && !EndsWith(w, "to") && !EndsWith(w, "from")
  }

  predicate EndsWith(w: string, t: string)
  {
    |w| >= |t| && w[|w| - |t|..] == t
  }

  predicate Digits(n: string)
  {
    n != [] && forall i :: 0 <= i < |n| ==> Text.IsDigit(n[i])
  }

  /** "from-a-N to-b-M" reads "a b". */
  lemma LabelOf(a: string, b: string, n: string, m: string)
    requires PlainWord(a) && PlainWord(b) && Digits(n) && Digits(m)
    ensures GradientLabel("from-" + a + "-" + n + (" to-" + b + "-" + m)) == a + " " + b
  {
    var t := " to-" + b + "-" + m;
    StripFromPart(a, n, t);
    StripToPart(b, m);
    DashesFree(a + " " + b);
  }

  /** "from-a-N" is read as "a", and what follows a space is scanned on. */
  lemma StripFromPart(a: string, n: string, t: string)
    requires PlainWord(a) && Digits(n) && t != [] && t[0] == ' '
    ensures StripTokens("from-" + a + "-" + n + t) == a + StripTokens(t)
  {
    var g := "from-" + (a + ("-" + n + t));
    assert "from-" + a + "-" + n + t == g;
    StripFrom(g);
    assert g[5..] == a + ("-" + n + t);
    StripWord(a, "-" + n + t);
    StripNumber(n, t);
  }

  /** " to-b-M" is read as " b". */
  lemma StripToPart(b: string, m: string)
    requires PlainWord(b) && Digits(m)
    ensures StripTokens(" to-" + b + "-" + m) == " " + b
  {
    var u := "-" + m;
    var v := "to-" + (b + u);
    var t := " " + v;
    assert " to-" + b + "-" + m == t;
    StripOther(t);
    assert t[1..] == v;
    StripTo(v);
    assert v[3..] == b + u;
    StripWord(b, u);
    StripNumber(m, "");
    assert "-" + m + "" == u;
  }

  lemma {:induction false} DashesFree(s: string)
    requires '-' !in s
    ensures DashesToSpaces(s) == s
  {
    if s != [] {
      DashesFree(s[1..]);
    }
  }

  /** The scan skips a leading "from-". */
  lemma StripFrom(s: string)
    requires FromAt(s)
    ensures StripTokens(s) == StripTokens(s[5..])
  {
  }

  /** The scan skips a leading "to-". */
  lemma StripTo(s: string)
    requires ToAt(s)
    ensures StripTokens(s) == StripTokens(s[3..])
  {
  }

  /** A first character that starts no token is kept. */
  lemma StripOther(s: string)
    requires s != [] && s[0] != '-' && s[0] != 'f' && s[0] != 't'
    ensures StripTokens(s) == [s[0]] + StripTokens(s[1..])
  {
  }

  /** A letter that starts neither token is kept. */
  lemma StripLetter(s: string)
    requires s != [] && Text.IsLower(s[0]) && !FromAt(s) && !ToAt(s)
    ensures StripTokens(s) == [s[0]] + StripTokens(s[1..])
  {
  }

  /** Neither token starts a plain word followed by a dash: the dash would have
      to come right after the word, which would then be "from" or "to". */
  lemma NoTokenAt(w: string, rest: string)
    requires PlainWord(w) && rest != [] && rest[0] == '-'
    ensures !FromAt(w + rest) && !ToAt(w + rest)
  {
    var s := w + rest;
    if |w| == 4 {
      assert w[|w| - 4..] == w;
      var i :| 0 <= i < 4 && w[i] != "from"[i];
      assert s[i] == w[i];
    }
    if |w| == 2 {
      assert w[|w| - 2..] == w;
      var i :| 0 <= i < 2 && w[i] != "to"[i];
      assert s[i] == w[i];
    }
    assert |w| > 4 ==> s[4] == w[4];
    assert |w| < 4 ==> s[|w|] == '-';
    assert |w| > 2 ==> s[2] == w[2];
    assert |w| < 2 ==> s[|w|] == '-';
  }

  /** A plain word is kept as it is when followed by a dash. */
  lemma {:induction false} StripWord(w: string, rest: string)
    requires PlainWord(w) && rest != [] && rest[0] == '-'
    ensures StripTokens(w + rest) == w + StripTokens(rest)
  {
    NoTokenAt(w, rest);
    LetterKept(w, rest, w + rest);
    var tail := StripTokens(w[1..] + rest);
    if |w| > 1 {
      PlainWordTail(w);
      StripWord(w[1..], rest);
      assert [w[0]] + tail == [w[0]] + w[1..] + StripTokens(rest);
    } else {
      assert w[1..] + rest == rest;
    }
    assert [w[0]] + w[1..] == w;
  }

  lemma LetterKept(w: string, rest: string, s: string)
    requires s == w + rest && w != [] && Text.IsLower(w[0]) && !FromAt(s) && !ToAt(s)
    ensures StripTokens(s) == [w[0]] + StripTokens(w[1..] + rest)
  {
    assert s[0] == w[0];
    assert s[1..] == w[1..] + rest;
    StripLetter(s);
  }

  /** A suffix of the tail is a suffix of the word. */
  lemma TailSuffix(w: string, x: string)
    requires |w| > 1
    ensures EndsWith(w[1..], x) ==> EndsWith(w, x)
  {
    var t := w[1..];
    if |t| >= |x| {
      assert t[|t| - |x|..] == w[|w| - |x|..];
    }
  }

  lemma PlainWordTail(w: string)
    requires PlainWord(w) && |w| > 1
    ensures PlainWord(w[1..])
  {
    var t := w[1..];
    assert Letters(t) by {
      forall i | 0 <= i < |t|
        ensures Text.IsLower(t[i])
      {
        assert t[i] == w[i + 1];
      }
    }
    TailSuffix(w, "to");
    TailSuffix(w, "from");
  }

  /** A dash and a run of digits is removed, up to what follows. */
  lemma StripNumber(n: string, rest: string)
    requires Digits(n) && (rest == [] || !Text.IsDigit(rest[0]))
    ensures StripTokens("-" + n + rest) == StripTokens(rest)
  {
    var s := "-" + n + rest;
    assert s[1] == n[0];
    StripDash(s);
    DigitsDropped(n, rest, s);
  }

  lemma DigitsDropped(n: string, rest: string, s: string)
    requires Digits(n) && (rest == [] || !Text.IsDigit(rest[0]))
    requires s == "-" + n + rest
    ensures DropDigits(s[1..]) == rest
  {
    assert s[1..] == n + rest;
    DropRun(n, rest);
  }

  /** The scan drops a dash followed by digits, with all the digits. */
  lemma StripDash(s: string)
    requires |s| >= 2 && s[0] == '-' && Text.IsDigit(s[1])
    ensures StripTokens(s) == StripTokens(DropDigits(s[1..]))
  {
  }

  lemma {:induction false} DropRun(n: string, rest: string)
    requires forall i :: 0 <= i < |n| ==> Text.IsDigit(n[i])
    requires rest == [] || !Text.IsDigit(rest[0])
    ensures DropDigits(n + rest) == rest
  {
    if n != [] {
      assert (n + rest)[1..] == n[1..] + rest;
      DropRun(n[1..], rest);
    } else {
      assert n + rest == rest;
    }
  }

  /** `handleEdit`'s form: the category's fields, the default gradient when it has none. */
  function EditCategoryForm(c: Category): (f: CategoryForm)
    ensures f.gradient != ""
    ensures c.gradient != "" ==> f.gradient == c.gradient
    ensures f.name == c.name && f.description == c.description && f.icon == c.icon && f.status == c.status
  {
    CategoryForm(c.name, c.description, c.icon, Or(c.gradient, DefaultGradient), c.status)
  }

  /** The request for a save: an update of the category being edited, else a create. */
  function CategoryMutationFor(editing: Option<Category>, f: CategoryForm): (m: CategoryMutation)
    ensures m.Update? <==> editing.Some?
    ensures m.Update? ==> m.id == editing.value.id
    ensures m.form == f
  {
    if editing.Some? then Update(editing.value.id, f) else Create(f)
  }

  /** The alert shown after a save. */
  function SaveNotice(editing: bool, response: Outcome<Category>): (notice: string)
    ensures response.Threw? ==> notice == "An error occurred while saving the category"
    ensures response.Returned? && response.envelope.success
            ==> notice == (if editing then "Category updated successfully!" else "Category created successfully!")
    ensures response.Returned? && !response.envelope.success && response.envelope.message != ""
            ==> notice == response.envelope.message
    ensures response.Returned? && !response.envelope.success && response.envelope.message == ""
            ==> notice == (if editing then "Failed to update category" else "Failed to create category")
  {
    match response
    case Threw(_) => "An error occurred while saving the category"
    case Returned(env) =>
      if env.success then
        if editing then "Category updated successfully!" else "Category created successfully!"
      else Or(env.message, if editing then "Failed to update category" else "Failed to create category")
  }

  /** The error `fetchCategories` leaves: the refusal's message (else the fixed
      text) on a refusal, the fixed text on a throw or a missing `data`, and the
      earlier error on a readable success. */
  function CategoriesFetchError(outcome: Outcome<seq<Category>>, previous: Option<string>): (r: Option<string>)
    ensures outcome.Returned? && outcome.envelope.success && outcome.envelope.data.Present? ==> r == previous
    ensures outcome.Returned? && outcome.envelope.success && outcome.envelope.data.Missing?
            ==> r == Some("Failed to fetch categories")
    ensures outcome.Returned? && !outcome.envelope.success
            ==> r == Some(Or(outcome.envelope.message, "Failed to fetch categories"))
    ensures outcome.Threw? ==> r == Some("Failed to fetch categories")
    ensures r.Some? && r != previous ==> r.value != ""
  {
    match outcome
    case Returned(env) =>
      if !env.success then Some(Or(env.message, "Failed to fetch categories"))
      else if env.data.Missing? then Some("Failed to fetch categories")
      else previous
    case Threw(_) => Some("Failed to fetch categories")
  }

  class CategoriesPageView {
    var categories: seq<Category>
    var loading: bool
    var error: Option<string>
    var showModal: bool
    var editingCategory: Option<Category>
    var form: CategoryForm

    constructor ()
      ensures categories == [] && loading && error == None && !showModal
      ensures editingCategory == None && form == DefaultCategoryForm
    {
      categories := [];
      loading := true;
      error := None;
      showModal := false;
      editingCategory := None;
      form := DefaultCategoryForm;
    }

    /** `fetchCategories`: a refusal or a throw (including reading a missing
        `data`) sets the error and keeps the list; a success does not clear an
        earlier error. */
    method FetchCategories(outcome: Outcome<seq<Category>>)
      modifies this`loading, this`categories, this`error
      ensures !loading
      ensures outcome.Returned? && outcome.envelope.success && outcome.envelope.data.Present?
              ==> categories == outcome.envelope.data.field.GetOr([]) && error == old(error)
      ensures outcome.Returned? && outcome.envelope.success && outcome.envelope.data.Missing?
              ==> categories == old(categories) && error == Some("Failed to fetch categories")
      ensures outcome.Returned? && !outcome.envelope.success
              ==> categories == old(categories)
                  && error == Some(Or(outcome.envelope.message, "Failed to fetch categories"))
      ensures outcome.Threw? ==> categories == old(categories) && error == Some("Failed to fetch categories")
      ensures error == CategoriesFetchError(outcome, old(error))
    {
      loading := true;
      match outcome {
        case Returned(response) =>
          if response.success {
            match FieldOrEmpty(response.data) {
              case TypeError =>
                error := Some("Failed to fetch categories");
              case Value(list) =>
                categories := list;
            }
          } else {
            error := Some(Or(response.message, "Failed to fetch categories"));
          }
        case Threw(_) =>
          error := Some("Failed to fetch categories");
      }
      loading := false;
    }

    /** `handleEdit`: open the modal on the category's values. */
    method HandleEdit(c: Category)
      modifies this`editingCategory, this`form, this`showModal
      ensures editingCategory == Some(c) && form == EditCategoryForm(c) && showModal
    {
      editingCategory := Some(c);
      form := EditCategoryForm(c);
      showModal := true;
    }

    /** `resetForm`. */
    method ResetForm()
      modifies this`form, this`editingCategory, this`showModal
      ensures form == DefaultCategoryForm && editingCategory == None && !showModal
    {
      form := DefaultCategoryForm;
      editingCategory := None;
      showModal := false;
    }

    /** `handleSubmit`: update the category being edited or create a new one; on
        success reload the list (`refetch` is what that reload produced) and reset
        the form. Returns the request made and the alert text. */
    method Submit(response: Outcome<Category>, refetch: Outcome<seq<Category>>)
      returns (request: CategoryMutation, notice: string)
      modifies this
      ensures request == CategoryMutationFor(old(editingCategory), old(form))
      ensures notice == SaveNotice(old(editingCategory).Some?, response)
      ensures response.Returned? && response.envelope.success
              ==> form == DefaultCategoryForm && editingCategory == None && !showModal && !loading
      ensures response.Returned? && response.envelope.success
              ==> categories == (if refetch.Returned? && refetch.envelope.success && refetch.envelope.data.Present?
                                 then refetch.envelope.data.field.GetOr([]) else old(categories))
      ensures response.Returned? && response.envelope.success
              ==> error == CategoriesFetchError(refetch, old(error))
      ensures !(response.Returned? && response.envelope.success)
              ==> form == old(form) && editingCategory == old(editingCategory)
                  && showModal == old(showModal) && categories == old(categories)
                  && error == old(error) && loading == old(loading)
    {
      var editing := editingCategory.Some?;
      request := CategoryMutationFor(editingCategory, form);
      notice := SaveNotice(editing, response);
      if response.Returned? && response.envelope.success {
        FetchCategories(refetch);
        ResetForm();
      }
    }
  }
}
