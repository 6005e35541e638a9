/** The JavaScript string operations the client and the schemas rely on:
    `trim`, `split`, `join`, and the comma-separated list parsing of the product forms. */
module Text {

  /** The characters `String.prototype.trim` removes (ECMAScript WhiteSpace and LineTerminator). */
  predicate IsSpace(c: char) {
    || c == '\t' || c == '\n' || c == '\U{000B}' || c == '\U{000C}' || c == '\r' || c == ' '
    || c == '\U{00A0}' || c == '\U{1680}' || ('\U{2000}' <= c <= '\U{200A}')
    || c == '\U{2028}' || c == '\U{2029}' || c == '\U{202F}' || c == '\U{205F}'
    || c == '\U{3000}' || c == '\U{FEFF}'
  }

  function TrimStart(s: string): (r: string)
    ensures |r| <= |s| && r == s[|s| - |r|..]
    ensures r != [] ==> !IsSpace(r[0])
  {
    if |s| > 0 && IsSpace(s[0]) then TrimStart(s[1..]) else s
  }

  function TrimEnd(s: string): (r: string)
    ensures |r| <= |s| && r == s[..|r|]
    ensures r != [] ==> !IsSpace(r[|r| - 1])
  {
    if |s| > 0 && IsSpace(s[|s| - 1]) then TrimEnd(s[..|s| - 1]) else s
  }

  /** No leading or trailing white space. */
  predicate IsTrimmed(s: string) {
    s != [] ==> !IsSpace(s[0]) && !IsSpace(s[|s| - 1])
  }

  /** `String.prototype.trim`. */
  function Trim(s: string): string {
    TrimEnd(TrimStart(s))
  }

  /** The result of Trim is trimmed, is a piece of the input, and Trim leaves trimmed text alone. */
  lemma TrimSpec(s: string)
    ensures IsTrimmed(Trim(s))
    ensures forall c :: c in Trim(s) ==> c in s
    ensures IsTrimmed(s) ==> Trim(s) == s
  {
    var a := TrimStart(s);
    var b := TrimEnd(a);
    if b != [] {
      assert b[0] == a[0];
    }
    forall c | c in b ensures c in s {
      var i :| 0 <= i < |b| && b[i] == c;
      assert a[i] == c;
      assert s[|s| - |a| + i] == c;
    }
  }

  /** A leading space makes no difference to Trim. */
  lemma TrimSpacePrefix(s: string)
    ensures Trim(" " + s) == Trim(s)
  {
    assert (" " + s)[1..] == s;
  }

  /** `s.split(d)`: the pieces between occurrences of d; always at least one piece. */
  function Split(s: string, d: char): (r: seq<string>)
    ensures |r| >= 1
    ensures forall p :: p in r ==> d !in p
    ensures d in s ==> |r| >= 2
    ensures d !in s ==> r == [s]
  {
    if |s| == 0 then [""]
    else
      var rest := Split(s[1..], d);
      if s[0] == d then [""] + rest
      else
        assert forall c :: c in [s[0]] + rest[0] ==> c == s[0] || c in rest[0];
        assert d in s ==> d in s[1..] by {
          if d in s {
            var i :| 0 <= i < |s| && s[i] == d;
            assert i > 0 && s[1..][i - 1] == d;
          }
        }
        assert d !in s ==> rest == [s[1..]] && [s[0]] + s[1..] == s;
        [[s[0]] + rest[0]] + rest[1..]
  }

  /** A separator after a separator-free prefix ends the first piece. */
  lemma {:induction false} SplitAfter(a: string, d: char, b: string)
    requires d !in a
    ensures Split(a + [d] + b, d) == [a] + Split(b, d)
  {
    if a == [] {
      assert a + [d] + b == [d] + b;
      assert ([d] + b)[1..] == b;
    } else {
      var s := a + [d] + b;
      assert s[0] == a[0] && s[1..] == a[1..] + [d] + b;
      SplitAfter(a[1..], d, b);
      assert [a[0]] + a[1..] == a;
    }
  }

  /** A character other than the separator at the front joins the first piece. */
  lemma SplitCons(c: char, t: string, d: char)
    requires c != d
    ensures Split([c] + t, d) == [[c] + Split(t, d)[0]] + Split(t, d)[1..]
  {
    assert ([c] + t)[1..] == t;
  }

  /** `xs.join(sep)`. */
  function Join(xs: seq<string>, sep: string): string
  {
    if |xs| == 0 then ""
    else if |xs| == 1 then xs[0]
    else xs[0] + sep + Join(xs[1..], sep)
  }

  /** `pieces.map(p => p.trim())`. */
  function TrimEach(ps: seq<string>): (r: seq<string>)
    ensures |r| == |ps|
    ensures forall i :: 0 <= i < |r| ==> r[i] == Trim(ps[i])
  {
    if ps == [] then [] else [Trim(ps[0])] + TrimEach(ps[1..])
  }

  /** Every trimmed piece is trimmed. */
  lemma TrimEachTrimmed(ps: seq<string>)
    ensures forall t :: t in TrimEach(ps) ==> IsTrimmed(t)
  {
    forall t | t in TrimEach(ps) ensures IsTrimmed(t) {
      var i :| 0 <= i < |ps| && TrimEach(ps)[i] == t;
      TrimSpec(ps[i]);
    }
  }

  /** `.filter(p => p)`: drops the empty strings, keeps the rest in order. */
  function DropEmpty(ps: seq<string>): (r: seq<string>)
    ensures forall p :: p in r ==> p != "" && p in ps
  {
    if ps == [] then []
    else if ps[0] == "" then DropEmpty(ps[1..])
    else [ps[0]] + DropEmpty(ps[1..])
  }

  /** `s.split(',').map(x => x.trim()).filter(x => x)`, the list fields of the product forms. */
  function ParseList(s: string): seq<string> {
    DropEmpty(TrimEach(Split(s, ',')))
  }

  /** An entry that survives, unchanged, a join with ", " and a re-parse. */
  predicate CleanEntry(x: string) {
    x != "" && ',' !in x && IsTrimmed(x)
  }

  /** Every parsed entry is non-empty, contains no comma and carries no outer white space. */
  lemma ParseListClean(s: string)
    ensures forall x :: x in ParseList(s) ==> CleanEntry(x)
  {
    var pieces := Split(s, ',');
    var trimmed := TrimEach(pieces);
    forall x | x in ParseList(s) ensures CleanEntry(x) {
      assert x in trimmed;
      var i :| 0 <= i < |trimmed| && trimmed[i] == x;
      TrimSpec(pieces[i]);
      assert pieces[i] in pieces;
    }
  }

  /** Parsing a list produced by joining clean entries with ", " (the edit form's load)
      gives the entries back. */
  lemma {:induction false} ParseJoin(xs: seq<string>)
    requires forall x :: x in xs ==> CleanEntry(x)
    ensures ParseList(Join(xs, ", ")) == xs
  {
    if |xs| == 0 {
      assert Split("", ',') == [""];
      TrimSpec("");
    } else if |xs| == 1 {
      assert xs[0] in xs;
      TrimSpec(xs[0]);
      assert Split(xs[0], ',') == [xs[0]];
      assert TrimEach([xs[0]]) == [xs[0]];
      assert DropEmpty([xs[0]]) == [xs[0]] + DropEmpty([]);
    } else {
      var x := xs[0];
      assert x in xs;
      var rest := Join(xs[1..], ", ");
      assert Join(xs, ", ") == x + [','] + (" " + rest);
      SplitAfter(x, ',', " " + rest);
      var tail := Split(" " + rest, ',');
      assert Split(Join(xs, ", "), ',') == [x] + tail;
      // The space after each comma disappears in the trim.
      SplitCons(' ', rest, ',');
      TrimSpacePrefix(Split(rest, ',')[0]);
      assert TrimEach(tail) == TrimEach(Split(rest, ','));
      TrimSpec(x);
      assert TrimEach([x] + tail) == [x] + TrimEach(tail);
      forall y | y in xs[1..] ensures CleanEntry(y) { assert y in xs; }
      ParseJoin(xs[1..]);
      assert DropEmpty([x] + TrimEach(tail)) == [x] + DropEmpty(TrimEach(tail));
    }
  }

  /** Parsing is idempotent through a join: saving a form loaded from a saved list changes nothing. */
  lemma ParseIdempotent(s: string)
    ensures ParseList(Join(ParseList(s), ", ")) == ParseList(s)
  {
    ParseListClean(s);
    ParseJoin(ParseList(s));
  }

  /** The UTF-16 code units JavaScript's `length` counts for one character: two for a
      character outside the Basic Multilingual Plane, one otherwise. */
  function CodeUnits(c: char): nat {
    if c as int > 0xFFFF then 2 else 1
  }

  /** A string's `length` in JavaScript, which the `maxlength` validators compare. */
  function JsLength(s: string): (n: nat)
    ensures |s| <= n <= 2 * |s|
  {
    if s == [] then 0 else CodeUnits(s[0]) + JsLength(s[1..])
  }

  /** For text inside the Basic Multilingual Plane the JavaScript length is the character count. */
  lemma {:induction false} JsLengthBmp(s: string)
    requires forall i :: 0 <= i < |s| ==> s[i] as int <= 0xFFFF
    ensures JsLength(s) == |s|
  {
    if s != [] {
      assert forall i :: 0 <= i < |s[1..]| ==> s[1..][i] == s[i + 1];
      JsLengthBmp(s[1..]);
    }
  }
}
