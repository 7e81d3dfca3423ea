/**
 The pointers in a schema-diff report: `_join` renders key paths as JSON Pointers
 (RFC 6901), and reading a pointer back gives the path.
 */
module JsonPointer {
  import opened Options

  // ----- writing

  /** `s.replace(c, t)` for a one-character needle. */
  function Replace(s: string, c: char, t: string): string {
    if s == "" then "" else (if s[0] == c then t else [s[0]]) + Replace(s[1..], c, t)
  }

  function Escape(token: string): string {
    Replace(Replace(token, '~', "~0"), '/', "~1")
  }

  /** `"/".join(...)` of the escaped tokens. */
  function Suffix(tokens: seq<string>): string {
    if tokens == [] then ""
    else if |tokens| == 1 then Escape(tokens[0])
    else Escape(tokens[0]) + "/" + Suffix(tokens[1..])
  }

  function Join(pointer: string, tokens: seq<string>): string {
    if pointer != "" then pointer + "/" + Suffix(tokens) else "/" + Suffix(tokens)
  }

  /** The pointer of a key path: section 3 of RFC 6901. */
  function Render(path: seq<string>): string {
    if path == [] then "" else "/" + Escape(path[0]) + Render(path[1..])
  }

  // ----- reading: section 4 of RFC 6901

  /** Every occurrence of the two characters `a`, `b` becomes `c`, from left to right. */
  function ReplacePair(s: string, a: char, b: char, c: char): string {
    if |s| < 2 then s
    else if s[0] == a && s[1] == b then [c] + ReplacePair(s[2..], a, b, c)
    else [s[0]] + ReplacePair(s[1..], a, b, c)
  }

  function Unescape(token: string): string {
    ReplacePair(ReplacePair(token, '~', '1', '/'), '~', '0', '~')
  }

  /** The pieces between slashes; there is always at least one. */
  function Split(s: string): (pieces: seq<string>)
    ensures pieces != []
  {
    if s == "" then [""]
    else
      var rest := Split(s[1..]);
      if s[0] == '/' then [""] + rest else [[s[0]] + rest[0]] + rest[1..]
  }

  function UnescapeAll(pieces: seq<string>): seq<string> {
    if pieces == [] then [] else [Unescape(pieces[0])] + UnescapeAll(pieces[1..])
  }

  function Parse(pointer: string): Option<seq<string>> {
    if pointer == "" then Some([])
    else if pointer[0] == '/' then Some(UnescapeAll(Split(pointer[1..])))
    else None
  }

  // ----- the round trip

  /** Every tilde is followed by a zero. */
  predicate TildesMarked(s: string) {
    forall i | 0 <= i < |s| && s[i] == '~' :: i + 1 < |s| && s[i + 1] == '0'
  }

  lemma {:induction false} SlashesUndone(s: string)
    requires TildesMarked(s)
    ensures ReplacePair(Replace(s, '/', "~1"), '~', '1', '/') == s
  {
    if s != "" {
      var escaped := Replace(s[1..], '/', "~1");
      if s[0] == '~' {
        assert s[1] == '0' && s[1..][0] == '0';
        assert forall i | 0 <= i < |s[2..]| :: s[2..][i] == s[i + 2];
        SlashesUndone(s[2..]);
        assert escaped == "0" + Replace(s[2..], '/', "~1") by { assert s[1..][1..] == s[2..]; }
        assert Replace(s, '/', "~1") == "~" + escaped;
        PlainHead('0', Replace(s[2..], '/', "~1"));
        assert ("~" + escaped)[1..] == escaped;
      } else {
        assert forall i | 0 <= i < |s[1..]| :: s[1..][i] == s[i + 1];
        SlashesUndone(s[1..]);
        if s[0] == '/' {
          assert Replace(s, '/', "~1")[2..] == escaped;
        } else {
          PlainHead(s[0], escaped);
          assert Replace(s, '/', "~1") == [s[0]] + escaped;
        }
      }
    }
  }

  lemma PlainHead(c: char, s: string)
    requires c != '~'
    ensures ReplacePair([c] + s, '~', '1', '/') == [c] + ReplacePair(s, '~', '1', '/')
  {
    assert ([c] + s)[1..] == s;
  }

  lemma {:induction false} TildesUndone(s: string)
    ensures ReplacePair(Replace(s, '~', "~0"), '~', '0', '~') == s
  {
    if s != "" {
      var escaped := Replace(s[1..], '~', "~0");
      TildesUndone(s[1..]);
      if s[0] == '~' {
        assert Replace(s, '~', "~0")[2..] == escaped;
      } else {
        assert Replace(s, '~', "~0")[1..] == escaped;
      }
    }
  }

  lemma {:induction false} TildesFollowed(s: string)
    ensures TildesMarked(Replace(s, '~', "~0"))
  {
    if s != "" {
      TildesFollowed(s[1..]);
      var rest := Replace(s[1..], '~', "~0");
      var e := Replace(s, '~', "~0");
      var head := if s[0] == '~' then "~0" else [s[0]];
      assert e == head + rest;
      forall i | 0 <= i < |e| && e[i] == '~' ensures i + 1 < |e| && e[i + 1] == '0' {
        if i >= |head| {
          assert rest[i - |head|] == '~';
          assert rest[i - |head| + 1] == '0';
        }
      }
    }
  }

  lemma UnescapeEscape(token: string)
    ensures Unescape(Escape(token)) == token
  {
    TildesFollowed(token);
    SlashesUndone(Replace(token, '~', "~0"));
    TildesUndone(token);
  }

  lemma {:induction false} NoSlash(s: string)
    ensures '/' !in Replace(s, '/', "~1")
  {
    if s != "" {
      NoSlash(s[1..]);
    }
  }

  /** A piece without a slash, followed by nothing or by a slash, is split off whole. */
  lemma {:induction false} SplitPiece(piece: string, rest: string)
    requires '/' !in piece
    ensures Split(piece) == [piece]
    ensures Split(piece + "/" + rest) == [piece] + Split(rest)
  {
    if piece == "" {
      assert piece + "/" + rest == "/" + rest;
    } else {
      SplitPiece(piece[1..], rest);
      assert piece == [piece[0]] + piece[1..];
      assert (piece + "/" + rest)[1..] == piece[1..] + "/" + rest;
    }
  }

  lemma TokenRead(token: string, rest: string)
    ensures UnescapeAll(Split(Escape(token))) == [token]
    ensures UnescapeAll(Split(Escape(token) + "/" + rest)) == [token] + UnescapeAll(Split(rest))
  {
    NoSlash(Replace(token, '~', "~0"));
    UnescapeEscape(token);
    SplitPiece(Escape(token), rest);
    assert ([Escape(token)] + Split(rest))[1..] == Split(rest);
  }

  lemma {:induction false} SuffixRenders(tokens: seq<string>)
    requires tokens != []
    ensures "/" + Suffix(tokens) == Render(tokens)
  {
    if |tokens| > 1 {
      SuffixRenders(tokens[1..]);
      assert "/" + (Escape(tokens[0]) + "/" + Suffix(tokens[1..]))
          == "/" + Escape(tokens[0]) + ("/" + Suffix(tokens[1..]));
    } else {
      assert Render(tokens) == "/" + Escape(tokens[0]) + "";
    }
  }

  lemma {:induction false} SuffixRead(tokens: seq<string>)
    requires tokens != []
    ensures UnescapeAll(Split(Suffix(tokens))) == tokens
  {
    if |tokens| == 1 {
      TokenRead(tokens[0], "");
    } else {
      SuffixRead(tokens[1..]);
      TokenRead(tokens[0], Suffix(tokens[1..]));
    }
  }

  /** Reading the pointer of a path gives the path back. */
  lemma ParseRender(path: seq<string>)
    ensures Parse(Render(path)) == Some(path)
  {
    if path != [] {
      SuffixRenders(path);
      SuffixRead(path);
      assert ("/" + Suffix(path))[1..] == Suffix(path);
    }
  }

  /** Two places of a document never share a pointer. */
  lemma RenderInjective(p: seq<string>, q: seq<string>)
    requires Render(p) == Render(q)
    ensures p == q
  {
    ParseRender(p);
    ParseRender(q);
  }

  lemma {:induction false} RenderConcat(p: seq<string>, q: seq<string>)
    ensures Render(p + q) == Render(p) + Render(q)
  {
    if p == [] {
      assert p + q == q;
    } else {
      RenderConcat(p[1..], q);
      assert (p + q)[1..] == p[1..] + q && (p + q)[0] == p[0];
    }
  }

  /** Joining tokens onto the pointer of a path gives the pointer of the longer path. */
  lemma JoinExtends(path: seq<string>, tokens: seq<string>)
    requires tokens != []
    ensures Join(Render(path), tokens) == Render(path + tokens)
  {
    SuffixRenders(tokens);
    RenderConcat(path, tokens);
    assert Render(path) + "/" + Suffix(tokens) == Render(path) + ("/" + Suffix(tokens));
    assert path == [] ==> Render(path) + Render(tokens) == Render(tokens);
  }
}
