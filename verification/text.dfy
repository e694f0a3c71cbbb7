/** Text as the reports and tools build it. Number formatting (`:,.2f`, `:,.0f`, `.1f`) is
    kept abstract: a document is a sequence of literal pieces and numbers still awaiting their
    format, so two documents are equal exactly when they hold the same words and the same
    numbers in the same styles. String helpers Python provides (`str.title`, `str.replace`,
    `str.lower`, `str.strip`, the `in` substring test) are written out on ASCII text. */
module Text {

  /** The format specifications the source uses. */
  datatype Style =
    | Grouped2   // `:,.2f`
    | Grouped0   // `:,.0f`
    | Fixed1     // `:.1f`
    | Fixed0     // `:.0f`

  /** A piece of text: a literal, a number in one of the styles, an integer count, or an
      enumeration value shown as its display name (DisplayName). */
  datatype Piece = Lit(s: string) | Num(x: real, style: Style) | Count(n: int) | Titled(value: string)

  type Doc = seq<Piece>

  /** `sep.join(docs)`. */
  function Join(docs: seq<Doc>, sep: string): (d: Doc)
    ensures docs == [] ==> d == []
    ensures |docs| == 1 ==> d == docs[0]
  {
    if docs == [] then []
    else if |docs| == 1 then docs[0]
    else Join(docs[..|docs| - 1], sep) + [Lit(sep)] + docs[|docs| - 1]
  }

  /** A document holds the literal text s as one of its pieces. */
  predicate Mentions(d: Doc, s: string) {
    exists i :: 0 <= i < |d| && d[i] == Lit(s)
  }

  predicate IsUpper(c: char) { 'A' <= c <= 'Z' }
  predicate IsLower(c: char) { 'a' <= c <= 'z' }
  predicate IsLetter(c: char) { IsUpper(c) || IsLower(c) }

  function ToUpper(c: char): (r: char)
    ensures IsLetter(c) <==> IsLetter(r)
    ensures !IsLower(r)
  {
    if IsLower(c) then (c as int - 32) as char else c
  }

  function ToLower(c: char): (r: char)
    ensures IsLetter(c) <==> IsLetter(r)
    ensures !IsUpper(r)
  {
    if IsUpper(c) then (c as int + 32) as char else c
  }

  /** `s.lower()` on ASCII letters. */
  function Lower(s: string): (r: string)
    ensures |r| == |s|
    ensures forall i :: 0 <= i < |s| ==> r[i] == ToLower(s[i])
  {
    if s == [] then [] else [ToLower(s[0])] + Lower(s[1..])
  }

  /** `s.replace(a, b)` for single characters. */
  function Replace(s: string, a: char, b: char): (r: string)
    ensures |r| == |s|
    ensures forall i :: 0 <= i < |s| ==> r[i] == if s[i] == a then b else s[i]
  {
    if s == [] then [] else [if s[0] == a then b else s[0]] + Replace(s[1..], a, b)
  }

  /** `str.title` from a given position: a letter that follows a letter is lowered, any
      other letter is raised; everything else is kept. */
  function TitleFrom(s: string, afterLetter: bool): (r: string)
    ensures |r| == |s|
  {
    if s == [] then []
    else
      var c := if afterLetter then ToLower(s[0]) else ToUpper(s[0]);
      [c] + TitleFrom(s[1..], IsLetter(s[0]))
  }

  function Title(s: string): string {
    TitleFrom(s, false)
  }

  /** Title case is idempotent: it only changes letters, never whether a character is
      one, so a second pass finds every letter already in place. */
  lemma {:induction false} TitleFromIdempotent(s: string, afterLetter: bool)
    ensures TitleFrom(TitleFrom(s, afterLetter), afterLetter) == TitleFrom(s, afterLetter)
  {
    if s != [] {
      var t := TitleFrom(s, afterLetter);
      var c := if afterLetter then ToLower(s[0]) else ToUpper(s[0]);
      assert t == [c] + TitleFrom(s[1..], IsLetter(s[0]));
      assert t[0] == c && t[1..] == TitleFrom(s[1..], IsLetter(s[0]));
      assert IsLetter(c) == IsLetter(s[0]);
      TitleFromIdempotent(s[1..], IsLetter(s[0]));
    }
  }

  lemma TitleIdempotent(s: string)
    ensures Title(Title(s)) == Title(s)
  {
    TitleFromIdempotent(s, false);
  }

  /** `value.replace("_", " ").title()`: the display name of an enumeration value. */
  function DisplayName(value: string): (r: string)
    ensures |r| == |value|
    ensures forall i :: 0 <= i < |r| ==> r[i] != '_'
  {
    var spaced := Replace(value, '_', ' ');
    assert forall i :: 0 <= i < |spaced| ==> spaced[i] != '_';
    DisplayNameKeepsSpaces(spaced, false);
    TitleFrom(spaced, false)
  }

  lemma {:induction false} DisplayNameKeepsSpaces(s: string, afterLetter: bool)
    requires forall i :: 0 <= i < |s| ==> s[i] != '_'
    ensures forall i :: 0 <= i < |s| ==> TitleFrom(s, afterLetter)[i] != '_'
  {
    if s != [] {
      DisplayNameKeepsSpaces(s[1..], IsLetter(s[0]));
      var c := if afterLetter then ToLower(s[0]) else ToUpper(s[0]);
      assert TitleFrom(s, afterLetter) == [c] + TitleFrom(s[1..], IsLetter(s[0]));
    }
  }

  /** `needle in hay`. */
  predicate Contains(hay: string, needle: string) {
    needle <= hay || (hay != [] && Contains(hay[1..], needle))
  }

  /** The needle occurs in the hay starting at position i. */
  predicate OccursAt(hay: string, needle: string, i: int) {
    0 <= i && i + |needle| <= |hay| && hay[i..i + |needle|] == needle
  }

  /** `needle in hay` holds exactly when the needle occurs at some position of the hay. */
  lemma {:induction false} ContainsSpec(hay: string, needle: string)
    ensures Contains(hay, needle) <==> exists i :: OccursAt(hay, needle, i)
  {
    if Contains(hay, needle) {
      if needle <= hay {
        assert OccursAt(hay, needle, 0);
      } else {
        ContainsSpec(hay[1..], needle);
        var i :| OccursAt(hay[1..], needle, i);
        assert hay[1..][i..i + |needle|] == hay[i + 1..i + 1 + |needle|];
        assert OccursAt(hay, needle, i + 1);
      }
    }
    if i :| OccursAt(hay, needle, i) {
      if i > 0 {
        ContainsSpec(hay[1..], needle);
        assert hay[1..][i - 1..i - 1 + |needle|] == hay[i..i + |needle|];
        assert OccursAt(hay[1..], needle, i - 1);
      } else {
        assert needle <= hay;
      }
    }
  }

  /** Text keeps every needle it contains when more text follows it. */
  lemma ContainsExtend(hay: string, more: string, needle: string)
    requires Contains(hay, needle)
    ensures Contains(hay + more, needle)
  {
    ContainsSpec(hay, needle);
    ContainsSpec(hay + more, needle);
    var i :| OccursAt(hay, needle, i);
    assert (hay + more)[i..i + |needle|] == hay[i..i + |needle|];
    assert OccursAt(hay + more, needle, i);
  }

  lemma LowerConcat(a: string, b: string)
    ensures Lower(a + b) == Lower(a) + Lower(b)
  {
    assert forall i :: 0 <= i < |a + b| ==> Lower(a + b)[i] == (Lower(a) + Lower(b))[i];
  }

  /** Lower-casing twice is lower-casing once. */
  lemma LowerIdempotent(s: string)
    ensures Lower(Lower(s)) == Lower(s)
  {
  }

  /** The characters `str.strip()` removes: Python's Unicode whitespace. */
  predicate IsSpace(c: char) {
    var n := c as int;
    (0x09 <= n <= 0x0D) || (0x1C <= n <= 0x20) || n == 0x85 || n == 0xA0 || n == 0x1680
    || (0x2000 <= n <= 0x200A) || n == 0x2028 || n == 0x2029 || n == 0x202F || n == 0x205F
    || n == 0x3000
  }

  function StripStart(s: string): (r: string)
    ensures |r| <= |s| && r == s[|s| - |r|..]
    ensures r == [] || !IsSpace(r[0])
    ensures forall i :: 0 <= i < |s| - |r| ==> IsSpace(s[i])
  {
    if s == [] || !IsSpace(s[0]) then s else StripStart(s[1..])
  }

  function StripEnd(s: string): (r: string)
    ensures |r| <= |s| && r == s[..|r|]
    ensures r == [] || !IsSpace(r[|r| - 1])
    ensures forall i :: |r| <= i < |s| ==> IsSpace(s[i])
  {
    if s == [] || !IsSpace(s[|s| - 1]) then s else StripEnd(s[..|s| - 1])
  }

  /** `s.strip()`. */
  function Strip(s: string): string {
    StripEnd(StripStart(s))
  }

  /** The stripped text is empty exactly when the text is all whitespace. */
  lemma StripEmpty(s: string)
    ensures Strip(s) == [] <==> forall i :: 0 <= i < |s| ==> IsSpace(s[i])
  {
    var a := StripStart(s);
  }
}
