/** The request-tracking identifier of the lead form: a version-4 UUID produced
    by replacing every `x` and `y` of a fixed template with a random hex digit.
    The random source (`(Math.random() * 16) | 0`) is taken as a supplied
    sequence of nibbles, consumed left to right, one per placeholder. */
module Uuid {

  /** One value of `(Math.random() * 16) | 0`. */
  type Nibble = n: int | 0 <= n < 16

  /** The template `"xxxxxxxx-xxxx-4xxx-yxxx-xxxxxxxxxxxx"` (lemma
      TemplateLiteral), with 31 placeholders: 30 `x` and one `y`. */
  function Template(): (t: string)
    ensures |t| == 36
  {
    seq(36, p => TemplateAt(p))
  }

  /** Number of random nibbles one identifier consumes. */
  const NibbleCount: nat := 31

  predicate IsPlaceholder(c: char) { c == 'x' || c == 'y' }

  /** A lower-case hexadecimal digit, as `Number.prototype.toString(16)` prints one. */
  predicate IsHexDigit(c: char) { '0' <= c <= '9' || 'a' <= c <= 'f' }

  /** The only digits the `y` placeholder can become. */
  predicate IsVariantDigit(c: char) { '8' <= c <= '9' || 'a' <= c <= 'b' }

  /** `v.toString(16)` for a value below 16. */
  function Hex(v: Nibble): (c: char)
    ensures IsHexDigit(c)
    ensures v < 10 <==> '0' <= c <= '9'
  {
    if v < 10 then ('0' as int + v) as char else ('a' as int + v - 10) as char
  }

  /** The value a hex digit denotes (zero for any other character). */
  function Unhex(c: char): (v: Nibble)
    ensures IsHexDigit(c) ==> Hex(v) == c
  {
    if '0' <= c <= '9' then c as int - '0' as int
    else if 'a' <= c <= 'f' then c as int - 'a' as int + 10
    else 0
  }

  /** What the replacement callback prints for placeholder `c` given random `r`:
      `r` itself for `x`, and `(r & 0x3) | 0x8` for `y`, which for a nibble is
      `8 + r % 4`. */
  function Digit(c: char, r: Nibble): (v: Nibble)
    ensures c == 'y' ==> 8 <= v <= 11 && v % 4 == r % 4
    ensures c != 'y' ==> v == r
  {
    if c == 'y' then 8 + r % 4 else r
  }

  /** Number of placeholders in a template. */
  function Holes(t: string): nat
  {
    if t == [] then 0 else (if IsPlaceholder(t[0]) then 1 else 0) + Holes(t[1..])
  }

  /** Character `c` of a result is one the template character `p` allows. */
  predicate Fits(p: char, c: char)
  {
    if p == 'x' then IsHexDigit(c)
    else if p == 'y' then IsVariantDigit(c)
    else c == p
  }

  /** `u` is an instance of template `t`. */
  predicate Matches(t: string, u: string)
  {
    |u| == |t| && forall i :: 0 <= i < |t| ==> Fits(t[i], u[i])
  }

  /** A well-formed identifier: the fixed characters of the template in place,
      a hex digit at every `x` and one of 8, 9, a, b at the `y`. */
  predicate IsUuidV4(u: string)
  {
    Matches(Template(), u)
  }

  /** `t.replace(/[xy]/g, callback)`: every placeholder is replaced, left to
      right, by the digit the callback makes from the next random nibble;
      every other character is kept. */
  function Substitute(t: string, rs: seq<Nibble>): (u: string)
    requires Holes(t) <= |rs|
    ensures |u| == |t|
  {
    if t == [] then []
    else if IsPlaceholder(t[0]) then [Hex(Digit(t[0], rs[0]))] + Substitute(t[1..], rs[1..])
    else [t[0]] + Substitute(t[1..], rs)
  }

  /** `generateUUIDv4()`, with the random nibbles given. */
  function Generate(rs: seq<Nibble>): (u: string)
    requires |rs| == NibbleCount
    ensures IsUuidV4(u)
  {
    TemplateHoles();
    SubstituteMatches(Template(), rs);
    Substitute(Template(), rs)
  }

  /** The nibbles a string shows at the placeholders of a template, read
      back left to right. */
  function Extract(t: string, u: string): (rs: seq<Nibble>)
    requires |u| == |t|
    ensures |rs| == Holes(t)
  {
    if t == [] then []
    else if IsPlaceholder(t[0]) then [Unhex(u[0])] + Extract(t[1..], u[1..])
    else Extract(t[1..], u[1..])
  }

  /** The nibbles an identifier shows at its 31 placeholders. */
  function Read(u: string): (rs: seq<Nibble>)
    requires |u| == |Template()|
    ensures |rs| == NibbleCount
  {
    TemplateHoles();
    Extract(Template(), u)
  }

  /** Character `p` of the template, by position. */
  function TemplateAt(p: int): char
  {
    if p == 8 || p == 13 || p == 18 || p == 23 then '-'
    else if p == 14 then '4'
    else if p == 19 then 'y'
    else 'x'
  }

  /** How many placeholders precede position `p` of the template: the index
      of the random nibble that position `p` consumes. */
  function Slot(p: nat): nat
  {
    p - (if p > 8 then 1 else 0) - (if p > 13 then 1 else 0) - (if p > 14 then 1 else 0)
      - (if p > 18 then 1 else 0) - (if p > 23 then 1 else 0)
  }

  /** The template position where nibble `j` is printed. */
  function Position(j: nat): nat
  {
    if j < 8 then j else if j < 12 then j + 1 else if j < 15 then j + 3
    else if j < 19 then j + 4 else j + 5
  }

  /** Nibble `j` is printed at a placeholder, the `y` one for nibble 15, and
      `Slot` and `Position` are inverse. */
  lemma PositionOf(j: nat)
    requires j < NibbleCount
    ensures Position(j) < 36 && Slot(Position(j)) == j
    ensures TemplateAt(Position(j)) == if j == 15 then 'y' else 'x'
  {
  }

  // ---------------------------------------------------------------------------
  // Lemmas about substitution into any template

  /** Every substitution result is an instance of its template. */
  lemma {:induction false} SubstituteMatches(t: string, rs: seq<Nibble>)
    requires Holes(t) <= |rs|
    ensures Matches(t, Substitute(t, rs))
  {
    if t != [] {
      var rest := if IsPlaceholder(t[0]) then rs[1..] else rs;
      SubstituteMatches(t[1..], rest);
      var u := Substitute(t, rs);
      assert u[1..] == Substitute(t[1..], rest);
      forall i | 1 <= i < |t| ensures Fits(t[i], u[i]) {
        assert Fits(t[1..][i - 1], u[1..][i - 1]);
      }
    }
  }

  /** Position `p` of a result: the template character, or, at a placeholder,
      the digit made from the nibble numbered by the placeholders before `p`. */
  lemma {:induction false} SubstituteAt(t: string, rs: seq<Nibble>, p: nat)
    requires Holes(t) <= |rs| && p < |t|
    ensures IsPlaceholder(t[p]) ==> Holes(t[..p]) < Holes(t)
    ensures Substitute(t, rs)[p] ==
      if IsPlaceholder(t[p]) then Hex(Digit(t[p], rs[Holes(t[..p])])) else t[p]
  {
    if p > 0 {
      var rest := if IsPlaceholder(t[0]) then rs[1..] else rs;
      SubstituteAt(t[1..], rest, p - 1);
      assert t[..p][0] == t[0] && t[..p][1..] == t[1..][..p - 1];
    }
  }

  /** Reading back at placeholder `p` gives the nibble its digit denotes. */
  lemma {:induction false} ExtractAt(t: string, u: string, p: nat)
    requires |u| == |t| && p < |t| && IsPlaceholder(t[p])
    ensures Holes(t[..p]) < Holes(t)
    ensures Extract(t, u)[Holes(t[..p])] == Unhex(u[p])
  {
    if p > 0 {
      ExtractAt(t[1..], u[1..], p - 1);
      assert t[..p][0] == t[0] && t[..p][1..] == t[1..][..p - 1];
    }
  }

  /** Every instance of a template is the substitution of the nibbles read
      back from it: substitution reaches every matching string. */
  lemma {:induction false} SubstituteExtract(t: string, u: string)
    requires Matches(t, u)
    ensures Substitute(t, Extract(t, u)) == u
  {
    if t != [] {
      assert Fits(t[0], u[0]);
      assert Matches(t[1..], u[1..]) by {
        forall i | 0 <= i < |t[1..]| ensures Fits(t[1..][i], u[1..][i]) {
          assert Fits(t[i + 1], u[i + 1]);
        }
      }
      SubstituteExtract(t[1..], u[1..]);
      var rs := Extract(t, u);
      if IsPlaceholder(t[0]) {
        assert rs[1..] == Extract(t[1..], u[1..]);
      }
      assert u == [u[0]] + u[1..];
    }
  }

  lemma {:induction false} HolesSnoc(t: string, p: nat)
    requires p < |t|
    ensures Holes(t[..p + 1]) == Holes(t[..p]) + if IsPlaceholder(t[p]) then 1 else 0
  {
    if p > 0 {
      HolesSnoc(t[1..], p - 1);
      assert t[..p + 1][1..] == t[1..][..p];
      assert t[..p][1..] == t[1..][..p - 1];
    } else {
      assert t[..1][1..] == [];
    }
  }

  // ---------------------------------------------------------------------------
  // The template of `generateUUIDv4`

  /** The template is the string literal of `generateUUIDv4`. */
  lemma TemplateLiteral()
    ensures Template() == "xxxxxxxx-xxxx-4xxx-yxxx-xxxxxxxxxxxx"
  {
  }

  /** The placeholders before position `p` number `Slot(p)`. */
  lemma {:induction false} TemplatePrefixHoles(p: nat)
    requires p <= |Template()|
    ensures Holes(Template()[..p]) == Slot(p)
  {
    if p > 0 {
      TemplatePrefixHoles(p - 1);
      HolesSnoc(Template(), p - 1);
    }
  }

  /** The template has exactly as many placeholders as nibbles are drawn. */
  lemma TemplateHoles()
    ensures Holes(Template()) == NibbleCount
  {
    TemplatePrefixHoles(36);
    assert Template()[..36] == Template();
  }

  /** Character `p` of a generated identifier. */
  lemma GenerateAt(rs: seq<Nibble>, p: nat)
    requires |rs| == NibbleCount && p < 36
    ensures Generate(rs)[p] ==
      if IsPlaceholder(TemplateAt(p)) then Hex(Digit(TemplateAt(p), rs[Slot(p)])) else TemplateAt(p)
  {
    TemplateHoles();
    TemplatePrefixHoles(p);
    SubstituteAt(Template(), rs, p);
  }

  /** The format the page relies on, position by position: length 36, dashes
      at 8, 13, 18 and 23, the version digit `4` at 14, the variant digit made
      from nibble 15 at 19, and elsewhere the hex digit of the next nibble. */
  lemma GenerateFormat(rs: seq<Nibble>)
    requires |rs| == NibbleCount
    ensures var u := Generate(rs);
      && |u| == 36
      && u[8] == '-' && u[13] == '-' && u[18] == '-' && u[23] == '-'
      && u[14] == '4'
      && u[19] == Hex(8 + rs[15] % 4) && IsVariantDigit(u[19])
      && (forall i :: 0 <= i < 8 ==> u[i] == Hex(rs[i]))
      && (forall i :: 9 <= i < 13 ==> u[i] == Hex(rs[i - 1]))
      && (forall i :: 15 <= i < 18 ==> u[i] == Hex(rs[i - 3]))
      && (forall i :: 20 <= i < 23 ==> u[i] == Hex(rs[i - 4]))
      && (forall i :: 24 <= i < 36 ==> u[i] == Hex(rs[i - 5]))
  {
    var u := Generate(rs);
    forall p | 0 <= p < 36
      ensures u[p] == if IsPlaceholder(TemplateAt(p)) then Hex(Digit(TemplateAt(p), rs[Slot(p)])) else TemplateAt(p)
    {
      GenerateAt(rs, p);
    }
    assert u[19] == Hex(Digit('y', rs[15]));
  }

  /** Every well-formed identifier is what some draw of nibbles generates. */
  lemma GenerateOnto(u: string)
    requires IsUuidV4(u)
    ensures Generate(Read(u)) == u
  {
    TemplateHoles();
    SubstituteExtract(Template(), u);
  }

  lemma UnhexHex(v: Nibble)
    ensures Unhex(Hex(v)) == v
  {
  }

  /** Nibble `j` read back from a generated identifier. */
  lemma ExtractGenerateAt(rs: seq<Nibble>, j: nat)
    requires |rs| == NibbleCount && j < NibbleCount
    ensures Read(Generate(rs))[j] == if j == 15 then 8 + rs[15] % 4 else rs[j]
  {
    var p := Position(j);
    var u := Generate(rs);
    PositionOf(j);
    TemplatePrefixHoles(p);
    ExtractAt(Template(), u, p);
    GenerateAt(rs, p);
    UnhexHex(Digit(TemplateAt(p), rs[j]));
  }

  /** Reading an identifier back yields the draw it came from, except that
      the variant nibble reads as the digit it printed, `8 + r % 4`. */
  lemma ExtractGenerate(rs: seq<Nibble>)
    requires |rs| == NibbleCount
    ensures Read(Generate(rs)) == rs[15 := 8 + rs[15] % 4]
  {
    var back := Read(Generate(rs));
    var want := rs[15 := 8 + rs[15] % 4];
    forall j | 0 <= j < NibbleCount ensures back[j] == want[j] {
      ExtractGenerateAt(rs, j);
    }
    assert back == want;
  }
}
