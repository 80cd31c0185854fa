/** The round user badge (src/components/UserAvatar.tsx): the text shown is the
    user's avatar glyph or, failing that, the upper-cased first letter of the
    name; the colour is looked up from that text. */
module UserAvatar {
  import opened Wrappers

  /** The `size` prop: "sm" | "md" | "lg". */
  datatype Size = Sm | Md | Lg

  /** `sizeClasses`: total over the three sizes. */
  function SizeClass(size: Size): string
  {
    match size
    case Sm => "h-6 w-6 text-[10px]"
    case Md => "h-8 w-8 text-xs"
    case Lg => "h-10 w-10 text-sm"
  }

  /** `colorMap`: the four initials of the demo team and their colours. */
  const ColorMap: map<string, string> := map[
    "F" := "bg-primary/20 text-primary",
    "A" := "bg-success/20 text-success",
    "S" := "bg-warning/20 text-warning",
    "M" := "bg-destructive/20 text-destructive"]

  /** The colour of every other initial. */
  const DefaultColor := "bg-muted text-muted-foreground"

  predicate IsAsciiLower(c: char)
  {
    'a' <= c <= 'z'
  }

  predicate IsAsciiUpper(c: char)
  {
    'A' <= c <= 'Z'
  }

  /** `toUpperCase` on one ASCII character; every other character is kept. */
  function ToUpper(c: char): (r: char)
    ensures IsAsciiLower(c) ==> IsAsciiUpper(r) && r as int == c as int - 32
    ensures !IsAsciiLower(c) ==> r == c
  {
    if IsAsciiLower(c) then (c as int - 32) as char else c
  }

  /** `avatar || name.charAt(0).toUpperCase()`: an absent or empty avatar
      falls back to the first character of the name, and `charAt(0)` of the
      empty name is the empty string. */
  function Initial(name: string, avatar: Option<string>): (r: string)
    ensures avatar.Some? && avatar.value != "" ==> r == avatar.value
    ensures (avatar.None? || avatar.value == "") && name == "" ==> r == ""
    ensures (avatar.None? || avatar.value == "") && name != "" ==> r == [ToUpper(name[0])]
  {
    if avatar.Some? && avatar.value != "" then avatar.value
    else if name == "" then ""
    else [ToUpper(name[0])]
  }

  /** `colorMap[initial] || "bg-muted text-muted-foreground"`. */
  function Color(initial: string): (r: string)
    ensures r == DefaultColor || r in ColorMap.Values
    ensures r == DefaultColor <==> initial !in ColorMap
  {
    if initial in ColorMap then ColorMap[initial] else DefaultColor
  }

  /** What the component draws: `initial` as text, the name as tooltip. */
  datatype Avatar = Avatar(text: string, title: string, sizeClass: string, colorClass: string)

  /** The component with its props; an omitted `size` is "md". */
  function Render(name: string, avatar: Option<string>, size: Option<Size>): (a: Avatar)
    ensures a.title == name
    ensures a.text == Initial(name, avatar)
    ensures a.colorClass == Color(a.text)
    ensures a.sizeClass == SizeClass(size.GetOr(Md))
  {
    var initial := Initial(name, avatar);
    Avatar(initial, name, SizeClass(size.GetOr(Md)), Color(initial))
  }

  // ---------------------------------------------------------------------------
  // Properties
  // ---------------------------------------------------------------------------

  /** Omitting the size is the same as asking for "md", and the three sizes
      have three different classes. */
  lemma DefaultSizeIsMedium(name: string, avatar: Option<string>)
    ensures Render(name, avatar, None) == Render(name, avatar, Some(Md))
    ensures SizeClass(Sm) != SizeClass(Md) && SizeClass(Md) != SizeClass(Lg) && SizeClass(Lg) != SizeClass(Sm)
  {
  }

  /** Without an avatar glyph the badge shows at most one character, and shows
      one exactly when the name is not empty. */
  lemma FallbackInitialLength(name: string, avatar: Option<string>)
    requires avatar.None? || avatar.value == ""
    ensures |Initial(name, avatar)| <= 1
    ensures Initial(name, avatar) != "" <==> name != ""
  {
  }

  /** Upper-casing is idempotent, leaves exactly the ASCII letters upper case,
      and identifies exactly the two cases of one letter. */
  lemma ToUpperCases(c: char, d: char)
    ensures ToUpper(ToUpper(c)) == ToUpper(c)
    ensures IsAsciiUpper(ToUpper(c)) <==> IsAsciiLower(c) || IsAsciiUpper(c)
    ensures ToUpper(c) == ToUpper(d) <==>
      || c == d
      || (IsAsciiLower(c) && d as int == c as int - 32)
      || (IsAsciiLower(d) && c as int == d as int - 32)
  {
  }

  /** Upper-casing makes the fallback insensitive to the case of the first
      letter: "fisnik" and "Fisnik" both show "F" and get the same colour. */
  lemma FallbackColorIgnoresCase(name: string, other: string)
    requires name != "" && other != ""
    requires IsAsciiLower(name[0]) && other[0] as int == name[0] as int - 32
    ensures Initial(name, None) == Initial(other, None) == [other[0]]
    ensures Color(Initial(name, None)) == Color(Initial(other, None))
  {
  }

  /** The four mapped initials get four different colours, none of them the default. */
  lemma MappedColorsDistinct(a: string, b: string)
    requires a in ColorMap && b in ColorMap && a != b
    ensures Color(a) != Color(b)
    ensures Color(a) != DefaultColor
  {
  }

  /** A glyph given as avatar is shown as is, whatever the name; the colour is
      the default unless the glyph is one of the four mapped initials. */
  lemma GlyphWins(name: string, other: string, glyph: string, size: Option<Size>)
    requires glyph != ""
    ensures Render(name, Some(glyph), size).text == Render(other, Some(glyph), size).text == glyph
    ensures Render(name, Some(glyph), size).colorClass == if glyph in ColorMap then ColorMap[glyph] else DefaultColor
  {
  }
}
