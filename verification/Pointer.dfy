/** RFC 6901 JSON Pointers: parsing, printing, and that the two are inverse. */
module JsonPointer {
  import opened Prelude

  /** The unescaped reference tokens of a pointer; no tokens refers to the whole document. */
  type Pointer = seq<string>

  // ----- library string functions -----

  /** The pieces of `s` between separators; n separators give n + 1 pieces. */
  function Split(s: string, sep: char): (r: seq<string>)
    ensures |r| >= 1
    ensures forall piece :: piece in r ==> sep !in piece
  {
    if s == [] then [[]]
    else
      var rest := Split(s[1..], sep);
      if s[0] == sep then [[]] + rest
      else
        assert rest[0] in rest;
        [[s[0]] + rest[0]] + rest[1..]
  }

  /** Every non-overlapping occurrence of the pair a, b replaced by c, scanning left to right. */
  function ReplacePair(s: string, a: char, b: char, c: char): string {
    if s == [] then []
    else if |s| >= 2 && s[0] == a && s[1] == b then [c] + ReplacePair(s[2..], a, b, c)
    else [s[0]] + ReplacePair(s[1..], a, b, c)
  }

  /** Every occurrence of the character a replaced by `sub`. */
  function ReplaceChar(s: string, a: char, sub: string): string {
    if s == [] then []
    else (if s[0] == a then sub else [s[0]]) + ReplaceChar(s[1..], a, sub)
  }

  // ----- the grammar, in one pass -----

  /** RFC 6901 section 3: the token a reference token stands for, if its escapes are valid. */
  function Unescape(tok: string): Option<string> {
    if tok == [] then Some([])
    else if tok[0] != '~' then
      match Unescape(tok[1..]) case None => None case Some(r) => Some([tok[0]] + r)
    else if |tok| >= 2 && (tok[1] == '0' || tok[1] == '1') then
      match Unescape(tok[2..]) case None => None case Some(r) => Some([if tok[1] == '0' then '~' else '/'] + r)
    else None
  }

  function Escape(tok: string): string {
    if tok == [] then []
    else (if tok[0] == '~' then "~0" else if tok[0] == '/' then "~1" else [tok[0]]) + Escape(tok[1..])
  }

  function UnescapeAll(toks: seq<string>): (r: Option<Pointer>)
    ensures r.Some? ==> |r.value| == |toks|
  {
    if toks == [] then Some([])
    else
      match Unescape(toks[0])
      case None => None
      case Some(t) => match UnescapeAll(toks[1..]) case None => None case Some(rest) => Some([t] + rest)
  }

  /** The pointer a string denotes, or None when it is not a JSON pointer. */
  function Parse(s: string): Option<Pointer> {
    if s == [] then Some([]) else if s[0] != '/' then None else UnescapeAll(Split(s[1..], '/'))
  }

  function Print(p: Pointer): string {
    if p == [] then [] else "/" + Escape(p[0]) + Print(p[1..])
  }

  // ----- the program -----

  /** Some position of the token holds a tilde that starts no escape. */
  predicate BadEscapeAt(tok: string, j: nat) {
    j < |tok| && tok[j] == '~' && (j + 1 == |tok| || (tok[j + 1] != '0' && tok[j + 1] != '1'))
  }

  function TwoPass(tok: string): string {
    ReplacePair(ReplacePair(tok, '~', '1', '/'), '~', '0', '~')
  }

  method ParsePointer(s: string) returns (p: Option<Pointer>)
    ensures p == Parse(s)
  {
    if s == "" {
      return Some([]);
    }
    if s[0] != '/' {
      return None;
    }
    var raw := Split(s[1..], '/');
    var out: Pointer := [];
    for i := 0 to |raw|
      invariant |out| == i
      invariant UnescapeAll(raw[..i]) == Some(out)
    {
      var tok := raw[i];
      assert raw[..i + 1] == raw[..i] + [tok];
      UnescapeAllSnoc(raw[..i], tok);
      for j := 0 to |tok|
        invariant forall k: nat :: k < j ==> !BadEscapeAt(tok, k)
      {
        if tok[j] == '~' && (j + 1 == |tok| || (tok[j + 1] != '0' && tok[j + 1] != '1')) {
          assert BadEscapeAt(tok, j);
          BadEscapeRejected(tok, j);
          assert raw == raw[..i + 1] + raw[i + 1..];
          UnescapeAllPrefix(raw[..i + 1], raw[i + 1..]);
          return None;
        }
      }
      NoBadEscapeTwoPass(tok);
      out := out + [TwoPass(tok)];
    }
    assert raw[..|raw|] == raw;
    p := Some(out);
  }

  method String(p: Pointer) returns (s: string)
    ensures s == Print(p)
  {
    s := "";
    for i := 0 to |p|
      invariant s == Print(p[..i])
    {
      s := s + "/";
      s := s + ReplaceChar(ReplaceChar(p[i], '~', "~0"), '/', "~1");
      TwoPassEscape(p[i]);
      PrintSnoc(p[..i], p[i]);
      assert p[..i + 1] == p[..i] + [p[i]];
    }
    assert p[..|p|] == p;
  }

  lemma {:induction false} PrintSnoc(p: Pointer, t: string)
    ensures Print(p + [t]) == Print(p) + "/" + Escape(t)
  {
    if p == [] {
      assert p + [t] == [t] && [t][1..] == [];
    } else {
      assert (p + [t])[1..] == p[1..] + [t];
      PrintSnoc(p[1..], t);
    }
  }

  // ----- the two-pass replacements are the one-pass grammar -----

  lemma {:induction false} UnescapeAllSnoc(toks: seq<string>, tok: string)
    ensures UnescapeAll(toks + [tok]) ==
            match (UnescapeAll(toks), Unescape(tok))
            case (Some(a), Some(b)) => Some(a + [b])
            case _ => None
  {
    if toks == [] {
      assert toks + [tok] == [tok];
      assert [tok][1..] == [];
      assert forall b: string :: [b] + [] == [] + [b];
    } else {
      assert (toks + [tok])[1..] == toks[1..] + [tok];
      UnescapeAllSnoc(toks[1..], tok);
      if UnescapeAll(toks).Some? && Unescape(tok).Some? {
        var t, a, b := Unescape(toks[0]).value, UnescapeAll(toks[1..]).value, Unescape(tok).value;
        assert [t] + (a + [b]) == ([t] + a) + [b];
      }
    }
  }

  lemma {:induction false} UnescapeAllPrefix(a: seq<string>, b: seq<string>)
    requires UnescapeAll(a).None?
    ensures UnescapeAll(a + b).None?
  {
    if a != [] && Unescape(a[0]).Some? {
      assert (a + b)[1..] == a[1..] + b;
      UnescapeAllPrefix(a[1..], b);
    }
  }

  lemma {:induction false} BadEscapeRejected(tok: string, j: nat)
    requires BadEscapeAt(tok, j)
    ensures Unescape(tok).None?
  {
    if tok[0] != '~' {
      BadEscapeRejected(tok[1..], j - 1);
    } else if j >= 2 {
      BadEscapeRejected(tok[2..], j - 2);
    }
  }

  /** Section 4's order of replacement, "~1" before "~0", computes the one-pass meaning of a valid token. */
  lemma {:induction false} NoBadEscapeTwoPass(tok: string)
    requires forall j: nat :: j < |tok| ==> !BadEscapeAt(tok, j)
    ensures Unescape(tok) == Some(TwoPass(tok))
  {
    if tok == [] {
    } else {
      assert !BadEscapeAt(tok, 0);
      var n := if tok[0] == '~' then 2 else 1;
      var rest := tok[n..];
      forall j: nat | j < |rest| ensures !BadEscapeAt(rest, j) {
        assert !BadEscapeAt(tok, n + j);
      }
      NoBadEscapeTwoPass(rest);
      if tok[0] == '~' && tok[1] == '0' {
        var inner := ReplacePair(rest, '~', '1', '/');
        assert tok[1..][1..] == rest;
        assert ReplacePair(tok[1..], '~', '1', '/') == ['0'] + inner;
        assert ReplacePair(tok, '~', '1', '/') == ['~'] + (['0'] + inner);
        assert (['~'] + (['0'] + inner))[2..] == inner;
      } else {
        var first := if tok[0] == '~' then '/' else tok[0];
        var inner := ReplacePair(rest, '~', '1', '/');
        assert ReplacePair(tok, '~', '1', '/') == [first] + inner;
        assert ([first] + inner)[1..] == inner;
      }
    }
  }

  lemma {:induction false} ReplaceCharConcat(s: string, t: string, a: char, sub: string)
    ensures ReplaceChar(s + t, a, sub) == ReplaceChar(s, a, sub) + ReplaceChar(t, a, sub)
  {
    if s == [] {
      assert s + t == t;
    } else {
      assert (s + t)[1..] == s[1..] + t;
      ReplaceCharConcat(s[1..], t, a, sub);
    }
  }

  lemma {:induction false} TwoPassEscape(tok: string)
    ensures ReplaceChar(ReplaceChar(tok, '~', "~0"), '/', "~1") == Escape(tok)
  {
    if tok != [] {
      var head := if tok[0] == '~' then "~0" else [tok[0]];
      ReplaceCharConcat(head, ReplaceChar(tok[1..], '~', "~0"), '/', "~1");
      TwoPassEscape(tok[1..]);
      assert ReplaceChar(head[1..], '/', "~1") == head[1..] by {
        if |head| == 2 { assert head[1..] == ['0']; assert ReplaceChar(head[1..][1..], '/', "~1") == []; }
      }
    }
  }

  // ----- parse and print are inverse -----

  lemma {:induction false} UnescapeEscape(tok: string)
    ensures Unescape(Escape(tok)) == Some(tok)
    ensures '/' !in Escape(tok)
  {
    if tok != [] {
      UnescapeEscape(tok[1..]);
      var e := Escape(tok);
      var n := if tok[0] == '~' || tok[0] == '/' then 2 else 1;
      assert e[n..] == Escape(tok[1..]);
      assert [tok[0]] + tok[1..] == tok;
      assert Unescape(e) == Some([tok[0]] + Unescape(e[n..]).value);
    }
  }

  lemma {:induction false} EscapeUnescape(e: string)
    requires Unescape(e).Some? && '/' !in e
    ensures Escape(Unescape(e).value) == e
  {
    if e != [] {
      var n := if e[0] == '~' then 2 else 1;
      EscapeUnescape(e[n..]);
      assert Unescape(e).value[1..] == Unescape(e[n..]).value;
      assert e == e[..n] + e[n..];
    }
  }

  lemma {:induction false} SplitPrefix(piece: string, rest: string)
    requires '/' !in piece
    requires rest == [] || rest[0] == '/'
    ensures Split(piece + rest, '/') == [piece] + (if rest == [] then [] else Split(rest[1..], '/'))
  {
    if piece == [] {
      assert piece + rest == rest;
    } else {
      assert (piece + rest)[1..] == piece[1..] + rest;
      SplitPrefix(piece[1..], rest);
      assert [piece[0]] + piece[1..] == piece;
    }
  }

  lemma ParseFirst(t: string, p: Pointer, e: string, rest: string)
    requires Unescape(e) == Some(t) && '/' !in e
    requires Parse(rest) == Some(p)
    ensures UnescapeAll(Split(e + rest, '/')) == Some([t] + p)
  {
    SplitPrefix(e, rest);
    UnescapeAllCons(e, if rest == [] then [] else Split(rest[1..], '/'));
  }

  lemma UnescapeAllCons(tok: string, toks: seq<string>)
    ensures UnescapeAll([tok] + toks) ==
            match (Unescape(tok), UnescapeAll(toks))
            case (Some(a), Some(b)) => Some([a] + b)
            case _ => None
  {
    assert ([tok] + toks)[1..] == toks;
  }

  lemma PrintCons(t: string, p: Pointer)
    ensures Print([t] + p) == "/" + Escape(t) + Print(p)
  {
    assert ([t] + p)[1..] == p;
  }

  /** Printing a token list and parsing it gives the token list back, whatever its tokens hold. */
  lemma {:induction false} ParsePrint(p: Pointer)
    ensures Parse(Print(p)) == Some(p)
  {
    if p != [] {
      var e, rest := Escape(p[0]), Print(p[1..]);
      UnescapeEscape(p[0]);
      assert Print(p)[1..] == e + rest by { assert "/" + e + rest == "/" + (e + rest); }
      ParsePrint(p[1..]);
      ParseFirst(p[0], p[1..], e, rest);
      assert [p[0]] + p[1..] == p;
    }
  }

  /** Printing what an accepted string parses to gives that string back. */
  lemma {:induction false} PrintParse(s: string)
    requires Parse(s).Some?
    ensures Print(Parse(s).value) == s
  {
    if s != [] {
      PrintSplit(s[1..]);
    }
  }

  lemma {:induction false} PrintSplit(body: string)
    requires UnescapeAll(Split(body, '/')).Some?
    ensures Print(UnescapeAll(Split(body, '/')).value) == "/" + body
  {
    hide Split, Escape, Unescape;
    var i := FirstSlash(body);
    var piece, rest := body[..i], body[i..];
    assert body == piece + rest;
    SplitPrefix(piece, rest);
    var tail := if rest == [] then [] else Split(rest[1..], '/');
    UnescapeAllCons(piece, tail);
    if rest == [] {
      NothingPrinted();
    } else {
      PrintSplit(rest[1..]);
      assert "/" + rest[1..] == rest;
    }
    hide UnescapeAll, Print;
    PrintFirst(piece, UnescapeAll(tail).value, rest);
  }

  lemma NothingPrinted()
    ensures UnescapeAll([]) == Some([]) && Print([]) == []
  {
  }

  lemma PrintFirst(piece: string, p: Pointer, rest: string)
    requires Unescape(piece).Some? && '/' !in piece && Print(p) == rest
    ensures Print([Unescape(piece).value] + p) == "/" + (piece + rest)
  {
    hide *;
    EscapeUnescape(piece);
    PrintCons(Unescape(piece).value, p);
    assert "/" + piece + rest == "/" + (piece + rest);
  }

  function FirstSlash(s: string): (i: nat)
    ensures i <= |s| && '/' !in s[..i]
    ensures i < |s| ==> s[i] == '/'
  {
    if s == [] || s[0] == '/' then 0
    else
      var i := FirstSlash(s[1..]) + 1;
      assert s[..i] == [s[0]] + s[1..][..i - 1];
      i
  }

  // ----- what pointers say -----

  lemma {:induction false} UnescapeConcat(a: string, b: string)
    requires Unescape(a).Some? && Unescape(b).Some?
    ensures Unescape(a + b) == Some(Unescape(a).value + Unescape(b).value)
  {
    if a == [] {
      assert a + b == b && Unescape(a).value + Unescape(b).value == Unescape(b).value;
    } else {
      var n := if a[0] == '~' then 2 else 1;
      var ab := a + b;
      assert ab[0] == a[0] && (n == 2 ==> ab[1] == a[1]) && ab[n..] == a[n..] + b;
      UnescapeConcat(a[n..], b);
      var x := if n == 1 then [a[0]] else if a[1] == '0' then "~" else "/";
      assert Unescape(a).value == x + Unescape(a[n..]).value;
      Assoc(x, Unescape(a[n..]).value, Unescape(b).value);
    }
  }

  /** In a token `~0` stands for `~`, `~1` for `/` and any other character but `~` for itself, wherever it stands. */
  lemma EscapesMean(a: string, b: string, c: char)
    requires Unescape(a).Some? && Unescape(b).Some? && c != '~'
    ensures Unescape(a + ("~0" + b)) == Some(Unescape(a).value + ("~" + Unescape(b).value))
    ensures Unescape(a + ("~1" + b)) == Some(Unescape(a).value + ("/" + Unescape(b).value))
    ensures Unescape(a + ([c] + b)) == Some(Unescape(a).value + ([c] + Unescape(b).value))
  {
    assert ("~0" + b)[2..] == b && ("~1" + b)[2..] == b && ([c] + b)[1..] == b;
    UnescapeConcat(a, "~0" + b);
    UnescapeConcat(a, "~1" + b);
    UnescapeConcat(a, [c] + b);
  }

  function Escaped(c: char): string { if c == '~' then "~0" else if c == '/' then "~1" else [c] }

  lemma {:induction false} EscapeMore(a: string, c: char)
    ensures Escape(a + [c]) == Escape(a) + if c == '~' then "~0" else if c == '/' then "~1" else [c]
  {
    if a == [] {
      assert [c][1..] == [];
    } else {
      EscapeMore(a[1..], c);
      assert (a + [c])[1..] == a[1..] + [c] && (a + [c])[0] == a[0];
      Assoc(Escaped(a[0]), Escape(a[1..]), Escaped(c));
    }
  }

  /** The whole document is the empty string, and each token adds a `/` and its escape. */
  lemma {:induction false} PrintMore(p: Pointer, tok: string)
    ensures Print([]) == "" && Print(p + [tok]) == Print(p) + ("/" + Escape(tok))
  {
    hide Escape;
    if p == [] {
      assert [tok][1..] == [];
    } else {
      var head, rest := "/" + Escape(p[0]), p[1..];
      PrintMore(rest, tok);
      assert (p + [tok])[1..] == rest + [tok] && (p + [tok])[0] == p[0];
      Assoc(head, Print(rest), "/" + Escape(tok));
    }
  }
}
