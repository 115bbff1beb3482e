/** The font and style controls (src/components/StyleControls.jsx): the
    font list filter, the Google Fonts stylesheet URL for a chosen family,
    and the single-field style update. The font list itself comes from a
    request that is not modelled; it is a parameter here. */
module StyleControls {
  import opened TextUtil

  /** One entry of the font list; `subsets` may be missing. */
  datatype Font = Font(family: string, category: string, subsets: Option<seq<string>>)

  /** The three filter inputs: search text, category and subset. */
  datatype FontFilter = FontFilter(search: string, category: string, subset: string)

  /** The filter as the component starts: no search, every category, and
      the `latin` subset. */
  const InitialFilter := FontFilter("", "all", "latin")

  /** The largest number of fonts the dropdown offers. */
  const MaxOffered: nat := 200

  predicate MatchesSearch(font: Font, search: string)
  {
    Contains(ToLower(font.family), ToLower(search))
  }

  predicate MatchesCategory(font: Font, category: string)
  {
    category == "all" || font.category == category
  }

  predicate MatchesSubset(font: Font, subset: string)
  {
    subset == "all" || (font.subsets.Some? && subset in font.subsets.value)
  }

  /** The three tests of the filter callback, all required. */
  predicate Matches(font: Font, f: FontFilter)
  {
    MatchesSearch(font, f.search) && MatchesCategory(font, f.category) && MatchesSubset(font, f.subset)
  }

  /** `filteredFonts` */
  function FilterFonts(fonts: seq<Font>, f: FontFilter): (r: seq<Font>)
    ensures |r| <= |fonts|
    ensures forall i :: 0 <= i < |r| ==> Matches(r[i], f)
  {
    if fonts == [] then []
    else if Matches(fonts[0], f) then [fonts[0]] + FilterFonts(fonts[1..], f)
    else FilterFonts(fonts[1..], f)
  }

  /** The filter keeps exactly the matching fonts, in their order. */
  lemma {:induction false} FilterFontsKeeps(fonts: seq<Font>, f: FontFilter)
    ensures IsSubsequence(FilterFonts(fonts, f), fonts)
    ensures forall x :: x in FilterFonts(fonts, f) <==> x in fonts && Matches(x, f)
    ensures forall x :: multiset(FilterFonts(fonts, f))[x] == if Matches(x, f) then multiset(fonts)[x] else 0
  {
    if fonts != [] {
      FilterFontsKeeps(fonts[1..], f);
      assert fonts == [fonts[0]] + fonts[1..];
      assert forall x :: x in fonts <==> x == fonts[0] || x in fonts[1..];
    }
  }

  /** With no search and `all` for both lists, every font is shown. */
  lemma {:induction false} NoFilterKeepsAll(fonts: seq<Font>)
    ensures FilterFonts(fonts, FontFilter("", "all", "all")) == fonts
  {
    if fonts != [] {
      NoFilterKeepsAll(fonts[1..]);
      ContainsEmpty(ToLower(fonts[0].family));
      assert ToLower("") == "";
      assert [fonts[0]] + fonts[1..] == fonts;
    }
  }

  /** At first, a font that does not list the `latin` subset is hidden. */
  lemma InitialFilterNeedsLatin(fonts: seq<Font>, font: Font)
    requires font.subsets.None? || "latin" !in font.subsets.value
    ensures font !in FilterFonts(fonts, InitialFilter)
  {
    FilterFontsKeeps(fonts, InitialFilter);
  }

  /** The search ignores letter case on both sides. */
  lemma SearchIgnoresCase(font: Font, search: string)
    ensures MatchesSearch(font, search) <==> MatchesSearch(font, ToLower(search))
  {
    ToLowerIdempotent(search);
  }

  /** `filteredFonts.slice(0, 200)`: what the dropdown lists. */
  function OfferedFonts(filtered: seq<Font>): (r: seq<Font>)
    ensures |r| <= MaxOffered && r <= filtered
    ensures |filtered| <= MaxOffered ==> r == filtered
  {
    if |filtered| <= MaxOffered then filtered else filtered[..MaxOffered]
  }

  // ---------------------------------------------------------------------
  // Style updates
  // ---------------------------------------------------------------------

  /** A style value: the controls write strings and numbers. */
  datatype StyleValue = StyleText(text: string) | StyleNumber(n: real)

  type Styles = map<string, StyleValue>

  /** `handleChange(field, value)`: `{ ...prev, [field]: value }`. */
  function HandleChange(prev: Styles, field: string, value: StyleValue): (r: Styles)
    ensures field in r && r[field] == value
    ensures r.Keys == prev.Keys + {field}
    ensures forall k :: k in prev && k != field ==> r[k] == prev[k]
  {
    prev[field := value]
  }

  const FontsPrefix: string := "https://fonts.googleapis.com/css2?family="
  const FontsSuffix: string := "&display=swap"

  /** The stylesheet URL for a family: spaces become `+`. */
  function FontUrl(family: string): (r: string)
    ensures StartsWith(r, FontsPrefix) && EndsWith(r, FontsSuffix)
    ensures |r| == |FontsPrefix| + |family| + |FontsSuffix|
    ensures ' ' !in r
  {
    var mid := ReplaceAll(family, ' ', '+');
    var r := FontsPrefix + mid + FontsSuffix;
    assert ' ' !in FontsPrefix && ' ' !in FontsSuffix && ' ' !in mid;
    assert r[|r| - |FontsSuffix|..] == FontsSuffix;
    r
  }

  /** The family named by a stylesheet URL: `+` read back as a space. */
  function FamilyOfUrl(url: string): string
    requires |url| >= |FontsPrefix| + |FontsSuffix|
  {
    ReplaceAll(url[|FontsPrefix|..|url| - |FontsSuffix|], '+', ' ')
  }

  /** A family without `+` is recovered from its URL; a family with one is
      not, since `+` and space both map to `+`. */
  lemma FontUrlRoundTrip(family: string)
    ensures '+' !in family ==> FamilyOfUrl(FontUrl(family)) == family
    ensures FontUrl(family) == FontUrl(ReplaceAll(family, '+', ' '))
  {
    var url := FontUrl(family);
    assert url[|FontsPrefix|..|url| - |FontsSuffix|] == ReplaceAll(family, ' ', '+');
  }

  /** `handleFontSelect`: an empty choice does nothing; otherwise the family
      and its URL are written, and nothing else changes. */
  function SelectFont(styles: Styles, family: string): (r: Styles)
    ensures family == "" ==> r == styles
    ensures family != "" ==>
              "fontFamily" in r && r["fontFamily"] == StyleText(family)
              && "fontUrl" in r && r["fontUrl"] == StyleText(FontUrl(family))
              && r.Keys == styles.Keys + {"fontFamily", "fontUrl"}
    ensures forall k :: k in styles && k != "fontFamily" && k != "fontUrl" ==> k in r && r[k] == styles[k]
  {
    if family == "" then styles
    else HandleChange(HandleChange(styles, "fontFamily", StyleText(family)), "fontUrl", StyleText(FontUrl(family)))
  }
}
