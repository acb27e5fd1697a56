/** The pure parts of the slide generator: colour parsing, title
    sanitising, the choice of a free output name, handler dispatch per
    layout and the text lines of a slide body. */
module SlideGenerator {
  import opened Text
  import opened Options

  // ---------------------------------------------------------------- colours

  predicate IsHexDigit(c: char)
  {
    '0' <= c <= '9' || 'a' <= c <= 'f' || 'A' <= c <= 'F'
  }

  function HexDigitValue(c: char): (v: nat)
    requires IsHexDigit(c)
    ensures v < 16
  {
    if '0' <= c <= '9' then c as int - '0' as int
    else if 'a' <= c <= 'f' then c as int - 'a' as int + 10
    else c as int - 'A' as int + 10
  }

  predicate AllHexDigits(s: string)
  {
    forall i :: 0 <= i < |s| ==> IsHexDigit(s[i])
  }

  /** The value of one or two hex digits. */
  function HexValue(digits: string): (v: nat)
    requires 1 <= |digits| <= 2 && AllHexDigits(digits)
    ensures v <= 255
    ensures |digits| == 1 ==> v < 16
  {
    if |digits| == 1 then HexDigitValue(digits[0])
    else 16 * HexDigitValue(digits[0]) + HexDigitValue(digits[1])
  }

  /** Python's `int(s, 16)` on a text of at most two characters: surrounding
      whitespace is ignored, one sign is allowed, then one or two ASCII hex
      digits; anything else raises `ValueError`, here `None`. */
  function ParseHex(s: string): (r: Option<int>)
    requires |s| <= 2
    ensures r.Some? ==> -15 <= r.value <= 255
  {
    var t := Strip(s);
    var signed := |t| > 0 && (t[0] == '+' || t[0] == '-');
    var digits := if signed then t[1..] else t;
    if digits != [] && AllHexDigits(digits) then
      var v: int := HexValue(digits);
      Some(if signed && t[0] == '-' then -v else v)
    else None
  }

  /** Python's slice `s[a:b]` for `0 <= a <= b`. */
  function Slice(s: string, a: nat, b: nat): (r: string)
    requires a <= b
    ensures |r| <= b - a
  {
    if |s| <= a then [] else if |s| <= b then s[a..] else s[a..b]
  }

  datatype Rgb = Rgb(red: int, green: int, blue: int)

  predicate IsChannel(v: int)
  {
    0 <= v <= 255
  }

  /** `hex_to_rgb`: three two-character pieces parsed base 16, each of which
      `RGBColor` accepts only within 0..255. A failure is `None`. */
  function HexToRgb(hex: string): (r: Option<Rgb>)
    ensures r.Some? ==> IsChannel(r.value.red) && IsChannel(r.value.green) && IsChannel(r.value.blue)
    ensures r.Some? <==>
      && ParseHex(Slice(hex, 0, 2)).Some? && IsChannel(ParseHex(Slice(hex, 0, 2)).value)
      && ParseHex(Slice(hex, 2, 4)).Some? && IsChannel(ParseHex(Slice(hex, 2, 4)).value)
      && ParseHex(Slice(hex, 4, 6)).Some? && IsChannel(ParseHex(Slice(hex, 4, 6)).value)
    ensures r.Some? ==> r.value == Rgb(ParseHex(Slice(hex, 0, 2)).value, ParseHex(Slice(hex, 2, 4)).value,
                                       ParseHex(Slice(hex, 4, 6)).value)
  {
    var red, green, blue := ParseHex(Slice(hex, 0, 2)), ParseHex(Slice(hex, 2, 4)), ParseHex(Slice(hex, 4, 6));
    if red.Some? && green.Some? && blue.Some? && IsChannel(red.value) && IsChannel(green.value) && IsChannel(blue.value)
    then Some(Rgb(red.value, green.value, blue.value))
    else None
  }

  /** Six leading hex digits, in either case, give the colour of their three
      pairs. */
  lemma SixDigitsColour(hex: string)
    requires SixHexDigits(hex)
    ensures HexToRgb(hex) == Some(Rgb(PairValue(hex, 0), PairValue(hex, 2), PairValue(hex, 4)))
  {
    PieceValue(hex, 0);
    PieceValue(hex, 2);
    PieceValue(hex, 4);
    ColourOfPieces(hex, PairValue(hex, 0), PairValue(hex, 2), PairValue(hex, 4));
  }

  /** Three pieces that parse to channels give their colour. */
  lemma ColourOfPieces(hex: string, red: int, green: int, blue: int)
    requires IsChannel(red) && IsChannel(green) && IsChannel(blue)
    requires ParseHex(Slice(hex, 0, 2)) == Some(red)
    requires ParseHex(Slice(hex, 2, 4)) == Some(green)
    requires ParseHex(Slice(hex, 4, 6)) == Some(blue)
    ensures HexToRgb(hex) == Some(Rgb(red, green, blue))
  {
  }

  /** The text starts with six hex digits. */
  predicate SixHexDigits(hex: string)
  {
    |hex| >= 6 && AllHexDigits(hex[..6])
  }

  /** The value of the two digits at `a` among six leading hex digits. */
  function PairValue(hex: string, a: nat): (v: nat)
    requires a <= 4 && SixHexDigits(hex)
    ensures v <= 255
  {
    var p := hex[a..a + 2];
    assert p[0] == hex[..6][a] && p[1] == hex[..6][a + 1];
    HexValue(p)
  }

  /** Each two-digit piece of six leading hex digits parses to its value. */
  lemma PieceValue(hex: string, a: nat)
    requires a <= 4 && SixHexDigits(hex)
    ensures ParseHex(Slice(hex, a, a + 2)) == Some(PairValue(hex, a))
  {
    var p := hex[a..a + 2];
    assert Slice(hex, a, a + 2) == p;
    assert p[0] == hex[..6][a] && p[1] == hex[..6][a + 1];
    ParseTwoDigits(p, HexValue(p));
  }

  function UpperHexDigit(v: nat): (c: char)
    requires v < 16
    ensures IsHexDigit(c) && HexDigitValue(c) == v
  {
    if v < 10 then ('0' as int + v) as char else ('A' as int + v - 10) as char
  }

  predicate IsUpperHexDigit(c: char)
  {
    '0' <= c <= '9' || 'A' <= c <= 'F'
  }

  /** `"%02X" % v`. */
  function Hex2(v: int): (s: string)
    requires IsChannel(v)
    ensures |s| == 2 && IsUpperHexDigit(s[0]) && IsUpperHexDigit(s[1])
  {
    [UpperHexDigit(v / 16), UpperHexDigit(v % 16)]
  }

  function FormatHex(c: Rgb): (s: string)
    requires IsChannel(c.red) && IsChannel(c.green) && IsChannel(c.blue)
    ensures |s| == 6
  {
    Hex2(c.red) + Hex2(c.green) + Hex2(c.blue)
  }

  /** Two hex digits parse to their value. */
  lemma ParseTwoDigits(s: string, v: int)
    requires |s| == 2 && IsHexDigit(s[0]) && IsHexDigit(s[1])
    requires 16 * HexDigitValue(s[0]) + HexDigitValue(s[1]) == v
    ensures ParseHex(s) == Some(v)
  {
    assert AllHexDigits(s) && s[0] != '+' && s[0] != '-';
    assert HexValue(s) == v;
    StripNoSpaceEnds(s);
  }

  /** The two digits of a channel carry its value. */
  lemma DigitsOfChannel(v: int)
    requires IsChannel(v)
    ensures |Hex2(v)| == 2 && IsHexDigit(Hex2(v)[0]) && IsHexDigit(Hex2(v)[1])
    ensures 16 * HexDigitValue(Hex2(v)[0]) + HexDigitValue(Hex2(v)[1]) == v
  {
    var hi, lo := v / 16, v % 16;
    assert Hex2(v) == [UpperHexDigit(hi), UpperHexDigit(lo)];
  }

  /** A channel formatted as two digits parses back to itself. */
  lemma ParseHex2(v: int)
    requires IsChannel(v)
    ensures ParseHex(Hex2(v)) == Some(v)
  {
    DigitsOfChannel(v);
    ParseTwoDigits(Hex2(v), v);
  }

  /** Formatting a colour and parsing it back gives the colour. */
  lemma {:induction false} FormatThenParse(c: Rgb)
    requires IsChannel(c.red) && IsChannel(c.green) && IsChannel(c.blue)
    ensures HexToRgb(FormatHex(c)) == Some(c)
  {
    var s := FormatHex(c);
    assert Slice(s, 0, 2) == Hex2(c.red);
    assert Slice(s, 2, 4) == Hex2(c.green);
    assert Slice(s, 4, 6) == Hex2(c.blue);
    ParseHex2(c.red);
    ParseHex2(c.green);
    ParseHex2(c.blue);
  }

  /** An upper-case digit is the digit of its own value. */
  lemma UpperDigitOfValue(c: char)
    requires IsUpperHexDigit(c)
    ensures UpperHexDigit(HexDigitValue(c)) == c
  {
  }

  lemma SplitByte(hi: nat, lo: nat)
    requires hi < 16 && lo < 16
    ensures (16 * hi + lo) / 16 == hi && (16 * hi + lo) % 16 == lo
  {
  }

  /** The value of two upper-case hex digits formats back to them. */
  lemma FormatPairValue(p: string)
    requires |p| == 2 && IsUpperHexDigit(p[0]) && IsUpperHexDigit(p[1])
    ensures IsChannel(16 * HexDigitValue(p[0]) + HexDigitValue(p[1]))
    ensures Hex2(16 * HexDigitValue(p[0]) + HexDigitValue(p[1])) == p
  {
    var hi, lo := HexDigitValue(p[0]), HexDigitValue(p[1]);
    SplitByte(hi, lo);
    UpperDigitOfValue(p[0]);
    UpperDigitOfValue(p[1]);
  }

  /** Parsing six upper-case hex digits and formatting the colour back gives
      the same text. */
  lemma {:induction false} ParseThenFormat(s: string)
    requires |s| == 6 && forall i :: 0 <= i < 6 ==> IsUpperHexDigit(s[i])
    ensures HexToRgb(s).Some? && FormatHex(HexToRgb(s).value) == s
  {
    var r, g, b := s[0..2], s[2..4], s[4..6];
    FormatPairValue(r);
    FormatPairValue(g);
    FormatPairValue(b);
    var c := Rgb(16 * HexDigitValue(r[0]) + HexDigitValue(r[1]), 16 * HexDigitValue(g[0]) + HexDigitValue(g[1]),
                 16 * HexDigitValue(b[0]) + HexDigitValue(b[1]));
    assert FormatHex(c) == s by {
      assert s == r + g + b;
    }
    FormatThenParse(c);
  }

  /** The documented example. */
  lemma ExampleColour()
    ensures HexToRgb("2563EB") == Some(Rgb(0x25, 0x63, 0xEB))
  {
    ParseThenFormat("2563EB");
    FormatThenParse(Rgb(0x25, 0x63, 0xEB));
  }

  // ------------------------------------------------------------ file names

  /** Characters kept besides alphanumerics: space, backslash, hyphen and
      underscore (the Python literal `" \-_"` keeps its backslash). */
  predicate IsTitleSymbol(c: char)
  {
    c == ' ' || c == '\\' || c == '-' || c == '_'
  }

  /** The characters of `title` that are alphanumeric or title symbols, in
      order; `isAlnum` stands for Python's `str.isalnum`. */
  function KeepTitleChars(title: string, isAlnum: char -> bool): (r: string)
    ensures |r| <= |title|
    ensures forall k :: 0 <= k < |r| ==> isAlnum(r[k]) || IsTitleSymbol(r[k])
  {
    if title == [] then []
    else
      var c := title[|title| - 1];
      KeepTitleChars(title[..|title| - 1], isAlnum) + if isAlnum(c) || IsTitleSymbol(c) then [c] else []
  }

  /** Keeping works character by character: one character is kept exactly
      when it is alphanumeric or a title symbol. */
  lemma KeepOne(c: char, isAlnum: char -> bool)
    ensures KeepTitleChars([c], isAlnum) == if isAlnum(c) || IsTitleSymbol(c) then [c] else []
  {
    assert [c][..0] == [];
  }

  /** Keeping the characters of a concatenation keeps those of each part,
      in order. */
  lemma {:induction false} KeepConcat(a: string, b: string, isAlnum: char -> bool)
    ensures KeepTitleChars(a + b, isAlnum) == KeepTitleChars(a, isAlnum) + KeepTitleChars(b, isAlnum)
  {
    if b == [] {
      assert a + b == a;
    } else {
      var init, c := b[..|b| - 1], b[|b| - 1];
      assert (a + b)[..|a + b| - 1] == a + init;
      assert (a + b)[|a + b| - 1] == c;
      KeepConcat(a, init, isAlnum);
    }
  }

  /** Keeping drops exactly the characters that are neither: a title made of
      kept characters is left as it is. */
  lemma {:induction false} KeepIsIdentityOnKept(title: string, isAlnum: char -> bool)
    requires forall k :: 0 <= k < |title| ==> isAlnum(title[k]) || IsTitleSymbol(title[k])
    ensures KeepTitleChars(title, isAlnum) == title
  {
    if title != [] {
      KeepIsIdentityOnKept(title[..|title| - 1], isAlnum);
      assert title[..|title| - 1] + [title[|title| - 1]] == title;
    }
  }

  /** The sanitised title: only kept characters, the kept text with only
      whitespace cut off at either end, and no whitespace at either end. */
  function SafeTitle(title: string, isAlnum: char -> bool): (r: string)
    ensures forall k :: 0 <= k < |r| ==> isAlnum(r[k]) || IsTitleSymbol(r[k])
    ensures exists i | 0 <= i <= |KeepTitleChars(title, isAlnum)| :: TrimmedAt(KeepTitleChars(title, isAlnum), r, i)
    ensures r == [] || (!IsSpace(r[0]) && !IsSpace(r[|r| - 1]))
  {
    var kept := KeepTitleChars(title, isAlnum);
    StripKeeps(kept, c => isAlnum(c) || IsTitleSymbol(c));
    Strip(kept)
  }

  /** Sanitising twice changes nothing more. */
  lemma SafeTitleIdempotent(title: string, isAlnum: char -> bool)
    ensures SafeTitle(SafeTitle(title, isAlnum), isAlnum) == SafeTitle(title, isAlnum)
  {
    var once := SafeTitle(title, isAlnum);
    KeepIsIdentityOnKept(once, isAlnum);
    StripIdempotent(KeepTitleChars(title, isAlnum));
  }

  /** `{date}-{title}.pptx`. */
  function BaseName(date: string, title: string): string
  {
    date + "-" + title + ".pptx"
  }

  /** `{date}-{title}-{i}.pptx`. */
  function NumberedName(date: string, title: string, i: nat): string
  {
    date + "-" + title + "-" + Decimal(i) + ".pptx"
  }

  /** Distinct suffixes give distinct names, and no numbered name is the
      base name. */
  lemma NumberedNamesDistinct(date: string, title: string, j: nat, k: nat)
    ensures NumberedName(date, title, j) != BaseName(date, title)
    ensures NumberedName(date, title, j) == NumberedName(date, title, k) ==> j == k
  {
    var p := date + "-" + title + "-";
    assert NumberedName(date, title, j) == p + Decimal(j) + ".pptx";
    assert NumberedName(date, title, k) == p + Decimal(k) + ".pptx";
    if NumberedName(date, title, j) == NumberedName(date, title, k) {
      var n := NumberedName(date, title, j);
      assert |Decimal(j)| == |Decimal(k)|;
      assert n[|p|..|p| + |Decimal(j)|] == Decimal(j);
      assert n[|p|..|p| + |Decimal(k)|] == Decimal(k);
      DecimalInjective(j, k);
    }
  }

  /** The output-name choice: the base name when it is free, otherwise the
      numbered name with the smallest suffix from 2 on that is free.
      `existing` is the finite set of names already in the output folder. */
  method ChooseOutputName(existing: set<string>, date: string, title: string) returns (name: string)
    ensures name !in existing
    ensures BaseName(date, title) !in existing ==> name == BaseName(date, title)
    ensures BaseName(date, title) in existing ==>
      exists i :: 2 <= i && name == NumberedName(date, title, i)
        && forall j :: 2 <= j < i ==> NumberedName(date, title, j) in existing
  {
    name := BaseName(date, title);
    if name in existing {
      var i := 2;
      ghost var tried: set<string> := {};
      while name in existing
        invariant 2 <= i
        invariant i == 2 ==> name == BaseName(date, title) && tried == {}
        invariant i > 2 ==> name == NumberedName(date, title, i - 1)
        invariant forall j :: 2 <= j < i - 1 ==> NumberedName(date, title, j) in existing
        invariant tried <= existing
        invariant forall x :: x in tried ==>
          x == BaseName(date, title) || exists j :: 2 <= j < i - 1 && x == NumberedName(date, title, j)
        decreases existing - tried
      {
        if i > 2 {
          forall x | x in tried ensures x != name {
            if x != BaseName(date, title) {
              var j :| 2 <= j < i - 1 && x == NumberedName(date, title, j);
              NumberedNamesDistinct(date, title, j, i - 1);
            }
          }
          NumberedNamesDistinct(date, title, i - 1, i - 1);
        }
        tried := tried + {name};
        name := NumberedName(date, title, i);
        i := i + 1;
      }
      assert 2 <= i - 1 && name == NumberedName(date, title, i - 1);
    }
  }

  // ------------------------------------------------------------ slides

  /** What a slide is drawn by. */
  datatype Handler = TitleSlideHandler | ImageCaptionHandler

  /** `LAYOUT_HANDLERS`. */
  const LayoutHandlers: map<string, Handler> := map[
    "title" := TitleSlideHandler,
    "image_caption" := ImageCaptionHandler,
    "bullet_points" := ImageCaptionHandler,
    "content" := ImageCaptionHandler
  ]

  /** The handler for a slide's layout: a missing layout is
      "image_caption", an unknown one falls back to the image-and-caption
      handler, so only "title" draws a title slide. */
  function HandlerFor(layout: Option<string>): (h: Handler)
    ensures h == TitleSlideHandler <==> layout == Some("title")
  {
    var name := layout.GetOr("image_caption");
    if name in LayoutHandlers then LayoutHandlers[name] else ImageCaptionHandler
  }

  /** A slide's `layout`, `body` (missing is "") and `bullets` (missing is
      empty). */
  datatype SlideData = SlideData(layout: Option<string>, body: string, bullets: seq<string>)

  /** The text lines of an image-and-caption slide: the body when it is not
      empty, then one "• " line per bullet. There are lines exactly when the
      source draws a text box, and none of them is empty. */
  function BodyLines(body: string, bullets: seq<string>): (lines: seq<string>)
    ensures |lines| == (if body != "" then 1 else 0) + |bullets|
    ensures lines == [] <==> body == "" && bullets == []
    ensures body != "" ==> lines[0] == body
    ensures forall k :: 0 <= k < |bullets| ==> lines[|lines| - |bullets| + k] == "• " + bullets[k]
    ensures forall k :: 0 <= k < |lines| ==> lines[k] != ""
  {
    (if body != "" then [body] else []) + seq(|bullets|, k requires 0 <= k < |bullets| => "• " + bullets[k])
  }

  /** The deck description: `title` (missing is "slides") and the slides. */
  datatype Deck = Deck(title: Option<string>, slides: seq<SlideData>)

  /** `generate_pptx` without the drawing and the saving: one handler per
      slide in order, then the output name. `date` is the `%Y%m%d` date
      and `existing` the names already in the output folder. */
  method GeneratePptx(deck: Deck, existing: set<string>, date: string, isAlnum: char -> bool)
    returns (handlers: seq<Handler>, name: string)
    ensures |handlers| == |deck.slides|
    ensures forall k :: 0 <= k < |deck.slides| ==> handlers[k] == HandlerFor(deck.slides[k].layout)
    ensures name !in existing
    ensures var safe := SafeTitle(deck.title.GetOr("slides"), isAlnum);
      BaseName(date, safe) !in existing ==> name == BaseName(date, safe)
    ensures var safe := SafeTitle(deck.title.GetOr("slides"), isAlnum);
      BaseName(date, safe) in existing ==>
        exists i :: 2 <= i && name == NumberedName(date, safe, i)
          && forall j :: 2 <= j < i ==> NumberedName(date, safe, j) in existing
  {
    handlers := [];
    for k := 0 to |deck.slides|
      invariant |handlers| == k
      invariant forall m :: 0 <= m < k ==> handlers[m] == HandlerFor(deck.slides[m].layout)
    {
      handlers := handlers + [HandlerFor(deck.slides[k].layout)];
    }
    var safe := SafeTitle(deck.title.GetOr("slides"), isAlnum);
    name := ChooseOutputName(existing, date, safe);
  }
}
