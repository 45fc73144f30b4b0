/** The shared icon table: ten named SVG icons, the emoji pass-through kept
    for older records, and the folder fallback. */
module Icons {
  import opened Wrappers

  /** The keys of `iconMap`. */
  datatype IconKey = Folder | Film | Tv | Gamepad | Anime | Music | Book | Star | Heart | Globe

  /** An icon as `getIcon` returns it: one of the SVG icons, the icon id itself
      when it is an emoji, or (as written) a member every plain object inherits. */
  datatype Icon = Svg(key: IconKey) | Emoji(text: string) | Inherited(name: string)

  /** The id under which each SVG icon is stored. */
  function KeyName(k: IconKey): (id: string)
    ensures id != "" && forall i :: 0 <= i < |id| ==> 'a' <= id[i] <= 'z'
  {
    match k
    case Folder => "folder"
    case Film => "film"
    case Tv => "tv"
    case Gamepad => "gamepad"
    case Anime => "anime"
    case Music => "music"
    case Book => "book"
    case Star => "star"
    case Heart => "heart"
    case Globe => "globe"
  }

  /** The table's own entry for an id, if it has one. */
  function KeyOf(id: string): (r: Option<IconKey>)
    ensures r.Some? ==> KeyName(r.value) == id
  {
    if id == "folder" then Some(Folder)
    else if id == "film" then Some(Film)
    else if id == "tv" then Some(Tv)
    else if id == "gamepad" then Some(Gamepad)
    else if id == "anime" then Some(Anime)
    else if id == "music" then Some(Music)
    else if id == "book" then Some(Book)
    else if id == "star" then Some(Star)
    else if id == "heart" then Some(Heart)
    else if id == "globe" then Some(Globe)
    else None
  }

  /** Every key is found under its own name: the table is a bijection between the
      ten keys and their names. */
  lemma KeyOfName(k: IconKey)
    ensures KeyOf(KeyName(k)) == Some(k)
  {
  }

  /** `isSVGIcon`: the id is one of the table's own keys. */
  predicate IsSvgIcon(id: string)
  {
    KeyOf(id).Some?
  }

  /** `s.length`: UTF-16 code units, two for a character outside the Basic Multilingual Plane. */
  function Utf16Length(s: string): (n: nat)
    ensures n >= |s|
    ensures n <= 2 * |s|
  {
    if s == [] then 0
    else (if s[0] as int >= 0x1_0000 then 2 else 1) + Utf16Length(s[1..])
  }

  /** A code point in one of the three ranges the emoji test accepts. */
  predicate InEmojiRange(c: char)
  {
    (0x1_F000 <= c as int <= 0x1_F6FF) || (0x2600 <= c as int <= 0x26FF) || (0x1_F900 <= c as int <= 0x1_F9FF)
  }

  /** The emoji regular expression finds a match somewhere in `s`. */
  function HasEmoji(s: string): (b: bool)
    ensures b <==> exists i :: 0 <= i < |s| && InEmojiRange(s[i])
  {
    if s == [] then false
    else if InEmojiRange(s[0]) then true
    else
      assert forall i :: 0 < i < |s| ==> s[i] == s[1..][i - 1];
      HasEmoji(s[1..])
  }

  /** The id is passed through as an emoji: non-empty, at most four UTF-16 units,
      and containing a character of the emoji ranges. */
  predicate LooksLikeEmoji(id: string)
  {
    id != "" && Utf16Length(id) <= 4 && HasEmoji(id)
  }

  /** The names a property read on a plain object literal finds on `Object.prototype`. */
  predicate IsPrototypeName(id: string)
  {
    || id == "constructor" || id == "toString" || id == "toLocaleString" || id == "valueOf"
    || id == "hasOwnProperty" || id == "isPrototypeOf" || id == "propertyIsEnumerable"
    || id == "__proto__" || id == "__defineGetter__" || id == "__defineSetter__"
    || id == "__lookupGetter__" || id == "__lookupSetter__"
  }

  /** No inherited name is one of the table's own keys. */
  lemma PrototypeNameNotKey(id: string)
    ensures IsPrototypeName(id) ==> KeyOf(id).None?
  {
    if KeyOf(id).Some? {
      var k := KeyOf(id).value;
      assert forall i :: 0 <= i < |id| ==> 'a' <= id[i] <= 'z';
      assert |id| <= 7;
    }
  }

  /** `getIcon` as written: `iconMap[iconId] || iconMap.folder` also finds the
      inherited members, which are truthy, so they are returned instead of the folder. */
  function GetIconAsWritten(id: string): (r: Icon)
    ensures LooksLikeEmoji(id) ==> r == Emoji(id)
    ensures !LooksLikeEmoji(id) && IsPrototypeName(id) ==> r == Inherited(id)
  {
    PrototypeNameNotKey(id);
    if LooksLikeEmoji(id) then Emoji(id)
    else if KeyOf(id).Some? then Svg(KeyOf(id).value)
    else if IsPrototypeName(id) then Inherited(id)
    else Svg(Folder)
  }

  /** `getIcon` reading only the table's own keys (the check `isSVGIcon` already
      makes): an emoji id is returned as is, a known id gives its icon, anything
      else the folder. */
  function GetIcon(id: string): (r: Icon)
    ensures r.Emoji? <==> LooksLikeEmoji(id)
    ensures r.Emoji? ==> r.text == id
    ensures !LooksLikeEmoji(id) && IsSvgIcon(id) ==> r.Svg? && KeyName(r.key) == id
    ensures !LooksLikeEmoji(id) && !IsSvgIcon(id) ==> r == Svg(Folder)
    ensures !r.Inherited?
  {
    if LooksLikeEmoji(id) then Emoji(id) else Svg(KeyOf(id).GetOr(Folder))
  }

  /** No name of an SVG icon looks like an emoji, so each one maps to its own icon. */
  lemma NamedIconsResolve(k: IconKey)
    ensures GetIcon(KeyName(k)) == Svg(k)
  {
    var id := KeyName(k);
    assert forall i :: 0 <= i < |id| ==> !InEmojiRange(id[i]);
    KeyOfName(k);
  }

  /** `getIcon` never returns a falsy value, so the `|| "📁"` fallback beside the
      category page's heading never applies. */
  lemma GetIconNeverEmpty(id: string)
    ensures GetIcon(id).Emoji? ==> GetIcon(id).text != ""
  {
  }

  /** The two readings differ only on the inherited names. */
  lemma AsWrittenAgreesElsewhere(id: string)
    requires !IsPrototypeName(id)
    ensures GetIconAsWritten(id) == GetIcon(id)
  {
  }

  /** The discrepancy: "constructor" is not an icon id, yet the lookup as written
      returns `Object` itself rather than the folder; the own-key reading gives the folder. */
  lemma ConstructorIsNotAnIcon()
    ensures !IsSvgIcon("constructor")
    ensures GetIconAsWritten("constructor") == Inherited("constructor")
    ensures GetIcon("constructor") == Svg(Folder)
  {
    var id := "constructor";
    assert Utf16Length(id) >= |id| == 11;
    PrototypeNameNotKey(id);
    assert IsPrototypeName(id);
  }

  /** Worked cases: a single clapper-board emoji (two UTF-16 units) passes through;
      three of them (six units) are too long and fall back to the folder. */
  lemma EmojiExamples()
    ensures GetIcon("\U{1F3AC}") == Emoji("\U{1F3AC}")
    ensures GetIcon("\U{1F3AC}\U{1F3AC}\U{1F3AC}") == Svg(Folder)
    ensures GetIcon("film") == Svg(Film)
  {
    assert Utf16Length("\U{1F3AC}") == 2;
    assert Utf16Length("\U{1F3AC}\U{1F3AC}\U{1F3AC}") == 6;
    assert InEmojiRange('\U{1F3AC}');
    NamedIconsResolve(Film);
  }
}
