/** The avatar (`src/components/Avatar.tsx`): an image when a source is
    given, otherwise a block showing one upper-case letter taken from
    `fallbackText`, else from `alt`, else `"?"`. `alt` defaults to
    `"profile"`. The pixel size and styling are not modelled. */
module Avatar {
  import opened Wrappers

  const DefaultAlt := "profile"

  /** The characters `String.prototype.trim` removes: JavaScript's white space
      (tab, vertical tab, form feed, space, no-break space, the byte order mark
      and the other space separators) and its line terminators. */
  predicate IsTrimmable(c: char) {
    c == '\t' || c == '\n' || c == '\U{000B}' || c == '\U{000C}' || c == '\r' || c == ' '
    || c == '\U{00A0}' || c == '\U{1680}' || ('\U{2000}' <= c <= '\U{200A}')
    || c == '\U{2028}' || c == '\U{2029}' || c == '\U{202F}' || c == '\U{205F}'
    || c == '\U{3000}' || c == '\U{FEFF}'
  }

  /** The text is empty after trimming. */
  predicate Blank(s: string) {
    forall i :: 0 <= i < |s| ==> IsTrimmable(s[i])
  }

  /** `s[i]` is the first character of `s` that trimming keeps. */
  predicate FirstVisibleAt(s: string, i: int) {
    0 <= i < |s| && !IsTrimmable(s[i]) && forall j :: 0 <= j < i ==> IsTrimmable(s[j])
  }

  /** The text with its leading trimmable characters removed: a suffix of
      `s`, everything cut off is trimmable, and what is left starts with a
      kept character. */
  function TrimStart(s: string): (r: string)
    ensures |r| <= |s| && r == s[|s| - |r|..]
    ensures forall i :: 0 <= i < |s| - |r| ==> IsTrimmable(s[i])
    ensures r == [] || !IsTrimmable(r[0])
  {
    if |s| > 0 && IsTrimmable(s[0]) then TrimStart(s[1..]) else s
  }

  /** The text with its trailing trimmable characters removed: a prefix of
      `s`, everything cut off is trimmable, and what is left ends with a kept
      character. */
  function TrimEnd(s: string): (r: string)
    ensures |r| <= |s| && r == s[..|r|]
    ensures forall i :: |r| <= i < |s| ==> IsTrimmable(s[i])
    ensures r == [] || !IsTrimmable(r[|r| - 1])
  {
    if |s| > 0 && IsTrimmable(s[|s| - 1]) then TrimEnd(s[..|s| - 1]) else s
  }

  /** Trimming the end of the suffix `t` of `s` leaves a slice of `s`
      followed only by trimmable characters. */
  lemma TrimEndOfSuffix(s: string, t: string)
    requires |t| <= |s| && t == s[|s| - |t|..]
    ensures var a, r := |s| - |t|, TrimEnd(t);
            a + |r| <= |s| && r == s[a..a + |r|]
            && forall i :: a + |r| <= i < |s| ==> IsTrimmable(s[i])
  {
    var a, r := |s| - |t|, TrimEnd(t);
    assert r == t[..|r|];
    forall i | a + |r| <= i < |s| ensures IsTrimmable(s[i]) {
      assert s[i] == t[i - a];
    }
  }

  /** `s.trim()`: the slice of `s` left once its leading and trailing runs
      of trimmable characters are cut off. It is empty exactly when `s` is
      blank, and otherwise starts and ends with a kept character. */
  function Trim(s: string): (r: string)
    ensures var a := |s| - |TrimStart(s)|;
            0 <= a && a + |r| <= |s| && r == s[a..a + |r|]
            && (forall i :: 0 <= i < a ==> IsTrimmable(s[i]))
            && (forall i :: a + |r| <= i < |s| ==> IsTrimmable(s[i]))
    ensures r == [] <==> Blank(s)
    ensures r != [] ==> !IsTrimmable(r[0]) && !IsTrimmable(r[|r| - 1])
  {
    TrimEndOfSuffix(s, TrimStart(s));
    TrimEmptyWhenBlank(s);
    TrimEnd(TrimStart(s))
  }

  /** Trimming both ends gives nothing exactly when every character is trimmable. */
  lemma TrimEmptyWhenBlank(s: string)
    ensures TrimEnd(TrimStart(s)) == [] <==> Blank(s)
  {
    var t := TrimStart(s);
    var r := TrimEnd(t);
    TrimEndOfSuffix(s, t);
    if r != [] {
      assert s[|s| - |t|] == r[0];
    }
    if t == [] {
      forall i | 0 <= i < |s| ensures IsTrimmable(s[i]) {
        assert i < |s| - |t|;
      }
    }
  }

  /** `c.toUpperCase()` on the ASCII letters; every other character is kept. */
  function UpperCase(c: char): (u: char)
    ensures 'a' <= c <= 'z' ==> 'A' <= u <= 'Z' && u as int == c as int - 32
    ensures !('a' <= c <= 'z') ==> u == c
  {
    if 'a' <= c <= 'z' then (c as int - 32) as char else c
  }

  /** `text?.trim()?.[0]`: the first character left after trimming, or
      `undefined` (`None`) for an absent or blank text. */
  function FirstOfTrimmed(text: Option<string>): Option<char> {
    match text
    case None => None
    case Some(s) =>
      var t := Trim(s);
      if t == [] then None else Some(t[0])
  }

  /** The first character `Trim` keeps is the first non-trimmable one. */
  lemma TrimKeepsFirstVisible(s: string, i: int)
    requires FirstVisibleAt(s, i)
    ensures Trim(s) != [] && Trim(s)[0] == s[i]
  {
  }

  /** The `letter` of the fallback block: `(fallbackText?.trim()?.[0] ??
      alt?.trim()?.[0] ?? "?").toUpperCase()`, where `alt` already carries
      its default. */
  function Letter(fallbackText: Option<string>, alt: string): (r: string)
    ensures |r| == 1
    // the first visible character of a non-blank fallbackText, upper-cased
    ensures forall i :: fallbackText.Some? && FirstVisibleAt(fallbackText.value, i)
                        ==> r == [UpperCase(fallbackText.value[i])]
    // an absent, empty or blank fallbackText falls back to alt
    ensures fallbackText.None? || Blank(fallbackText.value) ==>
              forall i :: FirstVisibleAt(alt, i) ==> r == [UpperCase(alt[i])]
    // both blank: a question mark
    ensures (fallbackText.None? || Blank(fallbackText.value)) && Blank(alt) ==> r == "?"
  {
    var c := match FirstOfTrimmed(fallbackText)
             case Some(c) => c
             case None =>
               match FirstOfTrimmed(Some(alt))
               case Some(c) => c
               case None => '?';
    var r := [UpperCase(c)];
    assert forall i :: fallbackText.Some? && FirstVisibleAt(fallbackText.value, i)
                       ==> r == [UpperCase(fallbackText.value[i])] by {
      forall i | fallbackText.Some? && FirstVisibleAt(fallbackText.value, i)
        ensures r == [UpperCase(fallbackText.value[i])]
      {
        TrimKeepsFirstVisible(fallbackText.value, i);
      }
    }
    assert fallbackText.None? || Blank(fallbackText.value) ==>
             forall i :: FirstVisibleAt(alt, i) ==> r == [UpperCase(alt[i])] by {
      forall i | (fallbackText.None? || Blank(fallbackText.value)) && FirstVisibleAt(alt, i)
        ensures r == [UpperCase(alt[i])]
      {
        TrimKeepsFirstVisible(alt, i);
      }
    }
    r
  }

  /** The fallback block's `title`: `fallbackText || alt`, with no trimming. */
  function Title(fallbackText: Option<string>, alt: string): (t: string)
    ensures fallbackText.Some? && fallbackText.value != "" ==> t == fallbackText.value
    ensures fallbackText.None? || fallbackText.value == "" ==> t == alt
  {
    if fallbackText.Some? && fallbackText.value != "" then fallbackText.value else alt
  }

  /** What the component renders. */
  datatype View = FallbackBlock(letter: string, title: string) | Image(src: string, alt: string)

  /** `Avatar({ src, alt = "profile", fallbackText })`: the fallback block
      exactly when `src` is absent or empty, else the image. */
  function Render(src: Option<string>, alt: Option<string>, fallbackText: Option<string>): (v: View)
    ensures v.FallbackBlock? <==> src.None? || src.value == ""
    ensures v.Image? ==> v.src == src.value && v.alt == alt.GetOr(DefaultAlt)
    ensures v.FallbackBlock? ==>
              v.letter == Letter(fallbackText, alt.GetOr(DefaultAlt)) && v.title == Title(fallbackText, alt.GetOr(DefaultAlt))
  {
    var altText := alt.GetOr(DefaultAlt);
    if src.None? || src.value == "" then FallbackBlock(Letter(fallbackText, altText), Title(fallbackText, altText))
    else Image(src.value, altText)
  }

  /** With neither `src`, `alt` nor `fallbackText`, the avatar shows `P`,
      from the default `alt`, titled `profile`. */
  lemma DefaultAvatar()
    ensures Render(None, None, None) == FallbackBlock("P", "profile")
  {
    assert FirstVisibleAt(DefaultAlt, 0);
    assert Blank([]);
  }

  /** A blank but non-empty `fallbackText` is skipped for the letter yet is
      still the title: the letter trims, the title does not. */
  lemma BlankFallbackStillTitles(fallbackText: string, alt: string, i: int)
    requires fallbackText != [] && Blank(fallbackText)
    requires FirstVisibleAt(alt, i)
    ensures Title(Some(fallbackText), alt) == fallbackText
    ensures Letter(Some(fallbackText), alt) == [UpperCase(alt[i])]
  {
  }
}
