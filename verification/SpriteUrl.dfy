/**
 Crops of sprite sheets travel inside URLs: the gallery parser prints them, the image fetcher parses them.
 */
module SpriteUrl {
  import opened Common

  datatype Crop = Crop(base: string, left: int, top: int, right: int, bottom: int)

  // ---------------------------------------------------------------- text

  function LastIndex(s: string, c: char): (r: Option<nat>)
    ensures r.Some? ==> r.value < |s| && s[r.value] == c && forall j :: r.value < j < |s| ==> s[j] != c
    ensures r.Some? <==> c in s
  {
    if s == "" then None
    else if s[|s| - 1] == c then Some(|s| - 1)
    else LastIndex(s[..|s| - 1], c)
  }

  function FirstIndex(s: string, c: char): (r: Option<nat>)
    ensures r.Some? ==> r.value < |s| && s[r.value] == c && forall j :: 0 <= j < r.value ==> s[j] != c
    ensures r.Some? <==> c in s
  {
    if s == "" then None
    else if s[0] == c then Some(0)
    else
      var r := FirstIndex(s[1..], c);
      if r.None? then None else Some(r.value + 1)
  }

  function Split(s: string, c: char): (r: seq<string>)
    ensures |r| > 0
  {
    var i := FirstIndex(s, c);
    if i.None? then [s] else [s[..i.value]] + Split(s[i.value + 1..], c)
  }

  predicate IsSpace(c: char) {
    c in {' ', '\t', '\n', '\r'}
  }

  function Strip(s: string): string {
    if s != "" && IsSpace(s[0]) then Strip(s[1..])
    else if s != "" && IsSpace(s[|s| - 1]) then Strip(s[..|s| - 1])
    else s
  }

  function Spaced(s: string): string {
    if s == "" then "" else [if s[0] == '+' then ' ' else s[0]] + Spaced(s[1..])
  }

  predicate IsDigit(c: char) {
    '0' <= c <= '9'
  }

  predicate AllDigits(s: string) {
    s != "" && forall c :: c in s ==> IsDigit(c)
  }

  /** Digits with single underscores between them, as Python reads them. */
  function ParseDigits(s: string): Option<nat> {
    if s == "" || !IsDigit(s[|s| - 1]) then None
    else
      var last := (s[|s| - 1] - '0') as nat;
      if |s| == 1 then Some(last)
      else
        var r := ParseDigits(if s[|s| - 2] == '_' then s[..|s| - 2] else s[..|s| - 1]);
        if r.None? then None else Some(10 * r.value + last)
  }

  function ParseInt(s: string): Option<int> {
    var t := Strip(s);
    if t != "" && t[0] in {'+', '-'} then
      var r := ParseDigits(t[1..]);
      if r.None? then None
      else
        var v: int := if t[0] == '-' then -(r.value as int) else r.value;
        Some(v)
    else
      var r := ParseDigits(t);
      if r.None? then None else Some(r.value)
  }

  function Decimal(n: nat): string {
    var digit := [('0' as int + n % 10) as char];
    if n < 10 then digit else Decimal(n / 10) + digit
  }

  // ---------------------------------------------------------------- parser

  /** Decoding of percent escapes; it leaves text without any alone. */
  ghost predicate Decoder(decode: string -> string) {
    forall s: string {:trigger decode(s)} :: '%' !in s ==> decode(s) == s
  }

  /** The first non-empty value of a field of a query string. */
  function FieldValue(pieces: seq<string>, key: string, decode: string -> string): Option<string> {
    if pieces == [] then None
    else
      var eq := FirstIndex(pieces[0], '=');
      if eq.Some? && pieces[0][eq.value + 1..] != "" && decode(Spaced(pieces[0][..eq.value])) == key then
        Some(decode(Spaced(pieces[0][eq.value + 1..])))
      else
        FieldValue(pieces[1..], key, decode)
  }

  function ParseRange(value: string): (r: Option<(int, int)>)
    ensures r.Some? ==> 0 <= r.value.0 < r.value.1
  {
    var dash := FirstIndex(value, '-');
    if dash.None? then None
    else
      var start, end := ParseInt(value[..dash.value]), ParseInt(value[dash.value + 1..]);
      if start.None? || end.None? || start.value < 0 || end.value <= start.value then None else Some((start.value, end.value))
  }

  function ParseSpec(base: string, spec: string, decode: string -> string): (r: Option<Crop>)
    ensures r.Some? ==> r.value.base == base && 0 <= r.value.left < r.value.right && 0 <= r.value.top < r.value.bottom
  {
    var pieces := Split(spec, '&');
    var x, y := FieldValue(pieces, "x", decode), FieldValue(pieces, "y", decode);
    if x.None? || y.None? then None
    else
      var xs, ys := ParseRange(x.value), ParseRange(y.value);
      if xs.None? || ys.None? then None else Some(Crop(base, xs.value.0, ys.value.0, xs.value.1, ys.value.1))
  }

  /** Whatever URL is given, an accepted crop is a proper rectangle of the image at a proper, non-empty prefix of that URL. */
  function ParseSpriteCrop(url: string, decode: string -> string): (r: Option<Crop>)
    ensures r.Some? ==> 0 <= r.value.left < r.value.right && 0 <= r.value.top < r.value.bottom
    ensures r.Some? ==> r.value.base != "" && r.value.base < url
  {
    var at := LastIndex(url, '@');
    if at.None? || at.value == 0 || at.value + 1 == |url| then None
    else ParseSpec(url[..at.value], url[at.value + 1..], decode)
  }

  // ---------------------------------------------------------------- printer

  function RangeText(start: nat, end: nat): string {
    Decimal(start) + "-" + Decimal(end)
  }

  function PrintX(position: Option<nat>, width: nat): string {
    if position.Some? && width != 0 then "x=" + RangeText(position.value, position.value + width) else ""
  }

  function PrintY(x: string, height: nat): string {
    if height != 0 then (if x != "" then "&" else "") + ("y=" + RangeText(0, height)) else ""
  }

  /** The thumbnail URL of a sprite: the range is left out where the style does not give it. */
  function PrintSprite(base: string, position: Option<nat>, width: nat, height: nat): string {
    var x := PrintX(position, width);
    var range := x + PrintY(x, height);
    if range != "" then base + "@" + range else base
  }

  // ---------------------------------------------------------------- round trip

  lemma {:induction false} DecimalParses(n: nat)
    ensures ParseDigits(Decimal(n)) == Some(n)
  {
    var s := Decimal(n);
    if n >= 10 {
      DecimalParses(n / 10);
      DecimalIsDigits(n / 10);
      var front := Decimal(n / 10);
      assert s[..|s| - 1] == front;
      assert s[|s| - 2] == front[|front| - 1] && s[|s| - 2] in front;
    }
  }

  lemma {:induction false} DecimalIsDigits(n: nat)
    ensures AllDigits(Decimal(n))
  {
    if n >= 10 {
      DecimalIsDigits(n / 10);
    }
  }

  lemma DecimalIsInt(n: nat)
    ensures ParseInt(Decimal(n)) == Some(n)
  {
    var s := Decimal(n);
    DecimalParses(n);
    DecimalIsDigits(n);
    assert s[0] in s && s[|s| - 1] in s;
  }

  lemma {:induction false} SpacedPlain(s: string)
    requires '+' !in s
    ensures Spaced(s) == s
  {
    if s != "" {
      SpacedPlain(s[1..]);
    }
  }

  /** A sign is read, not refused. */
  lemma SignsAreRead(n: nat)
    ensures ParseInt("+" + Decimal(n)) == Some(n)
    ensures var r := ParseInt("-" + Decimal(n)); r.Some? && r.value + n == 0
  {
    var s := Decimal(n);
    DecimalParses(n);
    DecimalIsDigits(n);
    assert s[|s| - 1] in s;
    assert ("+" + s)[1..] == s && ("-" + s)[1..] == s;
    assert ("+" + s)[|s|] == s[|s| - 1] && ("-" + s)[|s|] == s[|s| - 1];
  }

  lemma {:induction false} StripBack(s: string, c: char)
    requires IsSpace(c)
    ensures Strip(s + [c]) == Strip(s)
    decreases |s|
  {
    if s == "" {
      assert ("" + [c])[1..] == "";
    } else if IsSpace(s[0]) {
      StripBack(s[1..], c);
      assert (s + [c])[1..] == s[1..] + [c];
    } else {
      assert (s + [c])[..|s|] == s;
    }
  }

  /** Blanks around a number are ignored. */
  lemma BlanksAreIgnored(s: string, c: char)
    requires IsSpace(c)
    ensures ParseInt([c] + s) == ParseInt(s) && ParseInt(s + [c]) == ParseInt(s)
  {
    assert ([c] + s)[1..] == s;
    StripBack(s, c);
  }

  /** So is a single underscore between digits. */
  lemma {:induction false} UnderscoreIsIgnored(s: string, t: string)
    requires AllDigits(s) && AllDigits(t)
    ensures ParseDigits(s + "_" + t) == ParseDigits(s + t)
    decreases |t|
  {
    var n := |t| - 1;
    var u, v := s + "_" + t, s + t;
    assert t[n] in t && s[|s| - 1] in s;
    assert u[|u| - 1] == t[n] && v[|v| - 1] == t[n];
    if n == 0 {
      assert u[|u| - 2] == '_' && u[..|u| - 2] == s && v[..|v| - 1] == s && v[|v| - 2] == s[|s| - 1];
    } else {
      var front := t[..n];
      assert front[|front| - 1] in t;
      UnderscoreIsIgnored(s, front);
      assert u[..|u| - 1] == s + "_" + front && v[..|v| - 1] == s + front;
      assert u[|u| - 2] == front[n - 1] && v[|v| - 2] == front[n - 1];
    }
  }

  /** A field without a value counts as missing, so a later one of that name is read. */
  lemma BlankFieldIsSkipped(field: string, key: string, rest: seq<string>, decode: string -> string)
    requires '=' !in field
    ensures FieldValue([field + "="] + rest, key, decode) == FieldValue(rest, key, decode)
  {
    var pieces := [field + "="] + rest;
    FirstIndexAt(field, '=', "");
    assert field + ['='] + "" == pieces[0] && pieces[1..] == rest;
    assert pieces[0][|field| + 1..] == "";
  }

  /** A written range is read exactly if it is not empty. */
  lemma RangeParses(a: nat, b: nat)
    ensures ParseRange(RangeText(a, b)) == if a < b then Some((a as int, b as int)) else None
  {
    var s, t := Decimal(a), Decimal(b);
    DecimalIsDigits(a);
    var v := s + "-" + t;
    FirstIndexAt(s, '-', t);
    assert v[..|s|] == s && v[|s| + 1..] == t;
    DecimalIsInt(a);
    DecimalIsInt(b);
  }

  lemma FirstIndexAt(s: string, c: char, t: string)
    requires c !in s
    ensures FirstIndex(s + [c] + t, c) == Some(|s|)
  {
    var v := s + [c] + t;
    assert v[|s|] == c;
    assert forall j :: 0 <= j < |s| ==> v[j] == s[j] && s[j] in s;
  }

  lemma {:induction false} LastIndexAt(s: string, c: char, t: string)
    requires c !in t
    ensures LastIndex(s + [c] + t, c) == Some(|s|)
  {
    var v := s + [c] + t;
    if t != "" {
      LastIndexAt(s, c, t[..|t| - 1]);
      assert v[..|v| - 1] == s + [c] + t[..|t| - 1];
      assert v[|v| - 1] == t[|t| - 1] && t[|t| - 1] in t;
    }
  }

  lemma SplitTwo(s: string, c: char, t: string)
    requires c !in s && c !in t
    ensures Split(s + [c] + t, c) == [s, t]
  {
    var v := s + [c] + t;
    FirstIndexAt(s, c, t);
    assert v[..|s|] == s && v[|s| + 1..] == t;
  }

  /** A range without separators: digits and a dash. */
  predicate Plain(s: string) {
    s != "" && forall c :: c in s ==> IsDigit(c) || c == '-'
  }

  lemma FieldIsRead(key: char, value: string, rest: seq<string>, decode: string -> string)
    requires key in {'x', 'y'} && Plain(value) && Decoder(decode)
    ensures FieldValue([[key] + "=" + value] + rest, [key], decode) == Some(value)
  {
    var piece := [key] + "=" + value;
    var pieces := [piece] + rest;
    FirstIndexAt([key], '=', value);
    assert piece == [key] + ['='] + value && pieces[0] == piece;
    assert piece[..1] == [key] && piece[2..] == value;
    SpacedPlain([key]);
    SpacedPlain(value);
  }

  lemma FieldIsSkipped(key: char, value: string, other: string, rest: seq<string>, decode: string -> string)
    requires key in {'x', 'y'} && Plain(value) && Decoder(decode) && other != [key]
    ensures FieldValue([[key] + "=" + value] + rest, other, decode) == FieldValue(rest, other, decode)
  {
    var piece := [key] + "=" + value;
    var pieces := [piece] + rest;
    FirstIndexAt([key], '=', value);
    assert piece == [key] + ['='] + value && pieces[0] == piece && pieces[1..] == rest;
    assert piece[..1] == [key];
    SpacedPlain([key]);
  }

  function SpecText(xs: string, ys: string): string {
    ("x=" + xs) + ("&" + ("y=" + ys))
  }

  lemma SpecSplits(xs: string, ys: string)
    requires Plain(xs) && Plain(ys)
    ensures Split(SpecText(xs, ys), '&') == [['x'] + "=" + xs, ['y'] + "=" + ys]
  {
    var px, py := ['x'] + "=" + xs, ['y'] + "=" + ys;
    assert SpecText(xs, ys) == px + ['&'] + py;
    SplitTwo(px, '&', py);
  }

  lemma FieldsAreRead(xs: string, ys: string, decode: string -> string)
    requires Plain(xs) && Plain(ys) && Decoder(decode)
    ensures FieldValue([['x'] + "=" + xs, ['y'] + "=" + ys], "x", decode) == Some(xs)
    ensures FieldValue([['x'] + "=" + xs, ['y'] + "=" + ys], "y", decode) == Some(ys)
  {
    var px, py := ['x'] + "=" + xs, ['y'] + "=" + ys;
    assert [px, py] == [px] + [py] && [py] == [py] + [];
    FieldIsRead('x', xs, [py], decode);
    FieldIsSkipped('x', xs, "y", [py], decode);
    FieldIsRead('y', ys, [], decode);
    assert ['x'] == "x" && ['y'] == "y";
  }

  lemma SpecParses(base: string, xs: string, ys: string, decode: string -> string)
    requires Plain(xs) && Plain(ys) && Decoder(decode)
    ensures ParseSpec(base, SpecText(xs, ys), decode)
         == if ParseRange(xs).None? || ParseRange(ys).None? then None
            else Some(Crop(base, ParseRange(xs).value.0, ParseRange(ys).value.0, ParseRange(xs).value.1, ParseRange(ys).value.1))
  {
    SpecSplits(xs, ys);
    FieldsAreRead(xs, ys, decode);
  }

  lemma RangeIsPlain(a: nat, b: nat)
    ensures Plain(RangeText(a, b))
  {
    DecimalIsDigits(a);
    DecimalIsDigits(b);
  }

  lemma UrlSplits(base: string, range: string, decode: string -> string)
    requires '@' !in range && base != "" && range != ""
    ensures ParseSpriteCrop(base + "@" + range, decode) == ParseSpec(base, range, decode)
  {
    var url := base + "@" + range;
    LastIndexAt(base, '@', range);
    assert url == base + ['@'] + range && url[..|base|] == base && url[|base| + 1..] == range;
  }

  lemma FullRangePrints(base: string, position: nat, width: nat, height: nat, xs: string, ys: string)
    requires width > 0 && height > 0 && xs == RangeText(position, position + width) && ys == RangeText(0, height)
    ensures PrintSprite(base, Some(position), width, height) == base + "@" + SpecText(xs, ys)
  {
    var x, y := "x=" + xs, "&" + ("y=" + ys);
    assert PrintX(Some(position), width) == x;
    assert PrintY(x, height) == y;
    assert x + y != "";
  }

  lemma SpecReadsBack(crop: Crop, xs: string, ys: string, decode: string -> string)
    requires crop.base != "" && Plain(xs) && Plain(ys) && Decoder(decode)
    requires ParseRange(xs) == Some((crop.left, crop.right)) && ParseRange(ys) == Some((crop.top, crop.bottom))
    ensures ParseSpriteCrop(crop.base + "@" + SpecText(xs, ys), decode) == Some(crop)
  {
    SpecParses(crop.base, xs, ys, decode);
    NoAt(xs, ys);
    UrlSplits(crop.base, SpecText(xs, ys), decode);
  }

  /** Reading back a printed sprite gives the sheet and the rectangle, even when the sheet's own URL contains `@`. */
  lemma RoundTrip(base: string, position: nat, width: nat, height: nat, decode: string -> string)
    requires base != "" && width > 0 && height > 0 && Decoder(decode)
    ensures ParseSpriteCrop(PrintSprite(base, Some(position), width, height), decode)
         == Some(Crop(base, position, 0, position + width, height))
  {
    var crop := Crop(base, position, 0, position + width, height);
    var xs, ys := RangeText(position, position + width), RangeText(0, height);
    assert Plain(xs) && Plain(ys) && ParseRange(xs) == Some((crop.left, crop.right)) && ParseRange(ys) == Some((crop.top, crop.bottom)) by {
      RangeIsPlain(position, position + width);
      RangeIsPlain(0, height);
      RangeParses(position, position + width);
      RangeParses(0, height);
    }
    calc {
      ParseSpriteCrop(PrintSprite(base, Some(position), width, height), decode);
      { FullRangePrints(base, position, width, height, xs, ys); }
      ParseSpriteCrop(base + "@" + SpecText(xs, ys), decode);
      { SpecReadsBack(crop, xs, ys, decode); }
      Some(crop);
    }
  }

  /** Any written rectangle of any sheet is read back exactly if it is not empty. */
  lemma WrittenRectangle(base: string, left: nat, top: nat, right: nat, bottom: nat, decode: string -> string)
    requires base != "" && Decoder(decode)
    ensures ParseSpriteCrop(base + "@" + SpecText(RangeText(left, right), RangeText(top, bottom)), decode)
         == if left < right && top < bottom then Some(Crop(base, left, top, right, bottom)) else None
  {
    var xs, ys := RangeText(left, right), RangeText(top, bottom);
    RangeIsPlain(left, right);
    RangeIsPlain(top, bottom);
    RangeParses(left, right);
    RangeParses(top, bottom);
    SpecParses(base, xs, ys, decode);
    NoAt(xs, ys);
    UrlSplits(base, SpecText(xs, ys), decode);
  }

  lemma NoAt(xs: string, ys: string)
    requires Plain(xs) && Plain(ys)
    ensures '@' !in SpecText(xs, ys) && SpecText(xs, ys) != ""
  {
  }

  /** Distinct sprites get distinct URLs, hence distinct cache entries. */
  lemma SpritesHaveTheirOwnUrls(b1: string, p1: nat, w1: nat, h1: nat, b2: string, p2: nat, w2: nat, h2: nat)
    requires b1 != "" && w1 > 0 && h1 > 0 && b2 != "" && w2 > 0 && h2 > 0
    requires PrintSprite(b1, Some(p1), w1, h1) == PrintSprite(b2, Some(p2), w2, h2)
    ensures b1 == b2 && p1 == p2 && w1 == w2 && h1 == h2
  {
    var decode: string -> string := s => s;
    RoundTrip(b1, p1, w1, h1, decode);
    RoundTrip(b2, p2, w2, h2, decode);
  }

  lemma LoneSpec(base: string, key: char, value: string, decode: string -> string)
    requires key in {'x', 'y'} && Plain(value) && Decoder(decode)
    ensures ParseSpec(base, [key] + "=" + value, decode).None?
  {
    var piece := [key] + "=" + value;
    var other := if key == 'x' then "y" else "x";
    assert FirstIndex(piece, '&').None?;
    assert Split(piece, '&') == [piece] && [piece] == [piece] + [];
    FieldIsSkipped(key, value, other, [], decode);
    assert FieldValue([], other, decode).None?;
  }

  lemma LoneField(base: string, key: char, value: string, decode: string -> string)
    requires base != "" && key in {'x', 'y'} && Plain(value) && Decoder(decode)
    ensures ParseSpriteCrop(base + "@" + ([key] + "=" + value), decode).None?
  {
    UrlSplits(base, [key] + "=" + value, decode);
    LoneSpec(base, key, value, decode);
  }

  lemma OnlyY(base: string, position: Option<nat>, width: nat, height: nat, decode: string -> string)
    requires base != "" && Decoder(decode) && (position.None? || width == 0) && height > 0
    ensures ParseSpriteCrop(PrintSprite(base, position, width, height), decode).None?
  {
    var y := ['y'] + "=" + RangeText(0, height);
    assert PrintX(position, width) == "" && PrintY("", height) == y;
    assert "" + y == y;
    assert PrintSprite(base, position, width, height) == base + "@" + y;
    RangeIsPlain(0, height);
    LoneField(base, 'y', RangeText(0, height), decode);
  }

  lemma OnlyX(base: string, position: nat, width: nat, decode: string -> string)
    requires base != "" && Decoder(decode) && width > 0
    ensures ParseSpriteCrop(PrintSprite(base, Some(position), width, 0), decode).None?
  {
    var x := ['x'] + "=" + RangeText(position, position + width);
    assert PrintX(Some(position), width) == x;
    assert x + "" == x;
    assert PrintSprite(base, Some(position), width, 0) == base + "@" + x;
    RangeIsPlain(position, position + width);
    LoneField(base, 'x', RangeText(position, position + width), decode);
  }

  /** A printed range is read back exactly when the style gave position, width and height. */
  lemma PartialRangesAreNotCrops(base: string, position: Option<nat>, width: nat, height: nat, decode: string -> string)
    requires base != "" && Decoder(decode) && ((position.Some? && width > 0) || height > 0)
    ensures ParseSpriteCrop(PrintSprite(base, position, width, height), decode).Some?
       <==> position.Some? && width > 0 && height > 0
  {
    if position.None? || width == 0 {
      OnlyY(base, position, width, height, decode);
    } else if height == 0 {
      OnlyX(base, position.value, width, decode);
    } else {
      RoundTrip(base, position.value, width, height, decode);
    }
  }
}
