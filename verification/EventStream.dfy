/**
 The event-stream reader: chunks of decoded text are normalized one by one, cut into blocks
 at blank lines, parsed, and delivered once each across reconnects.
 */
module EventStream {

  // ----- cutting a buffer into blocks

  /** `buffer.indexOf("\n\n")`. */
  function Boundary(s: string): (b: int)
    ensures -1 <= b
    ensures b >= 0 ==> b + 2 <= |s| && s[b] == '\n' && s[b + 1] == '\n'
  {
    if |s| < 2 then -1
    else if s[0] == '\n' && s[1] == '\n' then 0
    else
      var b := Boundary(s[1..]);
      if b < 0 then -1 else b + 1
  }

  /** No blank line begins before the boundary. */
  lemma {:induction false} Leftmost(s: string)
    ensures forall i | 0 <= i && i + 1 < |s| && (Boundary(s) < 0 || i < Boundary(s)) ::
      !(s[i] == '\n' && s[i + 1] == '\n')
  {
    if |s| >= 2 {
      Leftmost(s[1..]);
      assert forall i | 0 < i < |s| :: s[i] == s[1..][i - 1];
    }
  }

  /** The blocks before each leftmost boundary; the unfinished tail is dropped. */
  function Blocks(s: string): seq<string>
    decreases |s|
  {
    var b := Boundary(s);
    if b < 0 then [] else [s[..b]] + Blocks(s[b + 2..])
  }

  lemma BoundaryFirst(s: string, b: nat)
    requires b + 2 <= |s| && s[b] == '\n' && s[b + 1] == '\n'
    requires forall i | 0 <= i < b :: !(s[i] == '\n' && s[i + 1] == '\n')
    ensures Boundary(s) == b
  {
    Leftmost(s);
  }

  /** A boundary already in the buffer stays the first one, whatever text follows. */
  lemma TakeBlock(buffer: string, rest: string)
    requires Boundary(buffer) >= 0
    ensures Blocks(buffer + rest) == [buffer[..Boundary(buffer)]] + Blocks(buffer[Boundary(buffer) + 2..] + rest)
  {
    var b := Boundary(buffer);
    Leftmost(buffer);
    forall i | 0 <= i < b ensures !((buffer + rest)[i] == '\n' && (buffer + rest)[i + 1] == '\n') {
      assert (buffer + rest)[i] == buffer[i] && (buffer + rest)[i + 1] == buffer[i + 1];
    }
    BoundaryFirst(buffer + rest, b);
    assert (buffer + rest)[..b] == buffer[..b];
    assert (buffer + rest)[b + 2..] == buffer[b + 2..] + rest;
  }

  // ----- an independent description of the split

  /** No two adjacent line feeds. */
  predicate NoBlankLine(s: string) {
    forall i | 0 <= i && i + 1 < |s| :: !(s[i] == '\n' && s[i + 1] == '\n')
  }

  /** The text is the blocks, each ended by a blank line that begins nowhere earlier, and an unfinished tail. */
  predicate IsSplit(text: string, blocks: seq<string>, tail: string) {
    if blocks == [] then text == tail && NoBlankLine(tail)
    else
      && |blocks[0]| + 2 <= |text|
      && text[..|blocks[0]| + 2] == blocks[0] + "\n\n"
      && NoBlankLine(blocks[0] + "\n")
      && IsSplit(text[|blocks[0]| + 2..], blocks[1..], tail)
  }

  lemma FirstBlock(text: string, block: string)
    requires |block| + 2 <= |text| && text[..|block| + 2] == block + "\n\n" && NoBlankLine(block + "\n")
    ensures Boundary(text) == |block| && text[..|block|] == block
  {
    var b, head := |block|, text[..|block| + 2];
    assert forall i | 0 <= i < b + 2 :: text[i] == head[i];
    assert forall i | 0 <= i <= b :: head[i] == (block + "\n")[i];
    assert head[b] == '\n' && head[b + 1] == '\n';
    BoundaryFirst(text, b);
    assert forall i | 0 <= i < b :: text[i] == block[i];
  }

  /** Any leftmost split of the text has the blocks the reader delivers. */
  lemma {:induction false} SplitUnique(text: string, blocks: seq<string>, tail: string)
    requires IsSplit(text, blocks, tail)
    ensures blocks == Blocks(text)
    decreases |blocks|
  {
    if blocks == [] {
      Leftmost(text);
      assert Boundary(text) < 0;
    } else {
      FirstBlock(text, blocks[0]);
      SplitUnique(text[|blocks[0]| + 2..], blocks[1..], tail);
    }
  }

  /** And they are such a split. */
  lemma {:induction false} SplitExists(text: string) returns (tail: string)
    ensures IsSplit(text, Blocks(text), tail)
    decreases |text|
  {
    var b := Boundary(text);
    if b < 0 {
      Leftmost(text);
      tail := text;
    } else {
      tail := SplitExists(text[b + 2..]);
      BlockEnds(text, b);
      var blocks := Blocks(text);
      assert blocks[0] == text[..b] && blocks[1..] == Blocks(text[b + 2..]);
    }
  }

  lemma BlockEnds(text: string, b: nat)
    requires Boundary(text) == b
    ensures text[..b + 2] == text[..b] + "\n\n" && NoBlankLine(text[..b] + "\n")
  {
    Leftmost(text);
    assert forall i | 0 <= i <= b :: (text[..b] + "\n")[i] == text[i];
  }

  // ----- line endings

  /** `text.replaceAll("\r\n", "\n")`. */
  function Normalize(s: string): string
    decreases |s|
  {
    if |s| < 2 then s
    else if s[0] == '\r' && s[1] == '\n' then "\n" + Normalize(s[2..])
    else [s[0]] + Normalize(s[1..])
  }

  function Concat(chunks: seq<string>): string {
    if chunks == [] then "" else chunks[0] + Concat(chunks[1..])
  }

  /** What the reader accumulates: each chunk normalized on its own. */
  function NormalizeEach(chunks: seq<string>): string {
    if chunks == [] then "" else Normalize(chunks[0]) + NormalizeEach(chunks[1..])
  }

  /** The cut between the two texts falls inside a CR LF pair. */
  predicate SplitsPair(a: string, b: string) {
    a != "" && b != "" && a[|a| - 1] == '\r' && b[0] == '\n'
  }

  lemma {:induction false} NormalizeConcat(a: string, b: string)
    ensures !SplitsPair(a, b) ==> Normalize(a + b) == Normalize(a) + Normalize(b)
    ensures |Normalize(a + b)| == |Normalize(a)| + |Normalize(b)| - if SplitsPair(a, b) then 1 else 0
    decreases |a|
  {
    if a == "" {
      assert a + b == b && Normalize(a) + Normalize(b) == Normalize(b);
    } else if |a| == 1 {
      NormalizeOneMore(a, b);
    } else if a[0] == '\r' && a[1] == '\n' {
      NormalizeConcat(a[2..], b);
      PairFirst(a, b);
      JoinAgain("\n", Normalize(a[2..]), Normalize(b));
    } else {
      NormalizeConcat(a[1..], b);
      OtherFirst(a, b);
      JoinAgain([a[0]], Normalize(a[1..]), Normalize(b));
    }
  }

  lemma PairFirst(a: string, b: string)
    requires |a| >= 2 && a[0] == '\r' && a[1] == '\n'
    ensures Normalize(a) == "\n" + Normalize(a[2..]) && Normalize(a + b) == "\n" + Normalize(a[2..] + b)
    ensures SplitsPair(a, b) <==> SplitsPair(a[2..], b)
  {
    assert (a + b)[2..] == a[2..] + b;
  }

  lemma OtherFirst(a: string, b: string)
    requires |a| >= 2 && !(a[0] == '\r' && a[1] == '\n')
    ensures Normalize(a) == [a[0]] + Normalize(a[1..]) && Normalize(a + b) == [a[0]] + Normalize(a[1..] + b)
    ensures SplitsPair(a, b) <==> SplitsPair(a[1..], b)
  {
    assert (a + b)[1..] == a[1..] + b;
  }

  lemma NormalizeOneMore(a: string, b: string)
    requires |a| == 1
    ensures !SplitsPair(a, b) ==> Normalize(a + b) == Normalize(a) + Normalize(b)
    ensures |Normalize(a + b)| == |Normalize(a)| + |Normalize(b)| - if SplitsPair(a, b) then 1 else 0
  {
    if b == "" {
      assert a + b == a && Normalize(a) + Normalize(b) == a;
    } else {
      assert (a + b)[1..] == b && (a + b)[2..] == b[1..];
      if SplitsPair(a, b) {
        LineFeedKept(b);
      }
    }
  }

  lemma LineFeedKept(b: string)
    requires b != "" && b[0] == '\n'
    ensures Normalize(b) == "\n" + Normalize(b[1..])
  {
  }

  /** No cut between chunks falls inside a CR LF pair. */
  predicate CleanCuts(chunks: seq<string>) {
    chunks != [] ==> !SplitsPair(chunks[0], Concat(chunks[1..])) && CleanCuts(chunks[1..])
  }

  /** Normalizing chunk by chunk equals normalizing the whole text exactly when no cut splits a CR LF pair. */
  lemma {:induction false} NormalizesExactlyWhen(chunks: seq<string>)
    ensures NormalizeEach(chunks) == Normalize(Concat(chunks)) <==> CleanCuts(chunks)
    ensures |NormalizeEach(chunks)| >= |Normalize(Concat(chunks))|
  {
    if chunks != [] {
      NormalizesExactlyWhen(chunks[1..]);
      NormalizeConcat(chunks[0], Concat(chunks[1..]));
      if NormalizeEach(chunks) == Normalize(Concat(chunks)) {
        assert !SplitsPair(chunks[0], Concat(chunks[1..]));
        var n := |Normalize(chunks[0])|;
        assert NormalizeEach(chunks)[n..] == NormalizeEach(chunks[1..]);
        assert Normalize(Concat(chunks))[n..] == Normalize(Concat(chunks[1..]));
      }
    }
  }

  lemma {:induction false} LineFeedsOnly(chunks: seq<string>)
    requires '\r' !in Concat(chunks)
    ensures CleanCuts(chunks) && Normalize(Concat(chunks)) == Concat(chunks)
  {
    NoCarriageReturn(Concat(chunks));
    if chunks != [] {
      assert forall c | c in chunks[0] :: c in Concat(chunks);
      assert forall c | c in Concat(chunks[1..]) :: c in Concat(chunks);
      LineFeedsOnly(chunks[1..]);
    }
  }

  lemma {:induction false} NoCarriageReturn(s: string)
    requires '\r' !in s
    ensures Normalize(s) == s
    decreases |s|
  {
    if |s| >= 2 {
      assert s[0] in s;
      NoCarriageReturn(s[1..]);
    }
  }

  /** The blocks do not depend on how the text was cut, as long as no cut splits a CR LF pair. */
  lemma ChunkingIrrelevant(chunks: seq<string>, others: seq<string>)
    requires Concat(chunks) == Concat(others) && CleanCuts(chunks) && CleanCuts(others)
    ensures Blocks(NormalizeEach(chunks)) == Blocks(NormalizeEach(others)) == Blocks(Normalize(Concat(chunks)))
  {
    NormalizesExactlyWhen(chunks);
    NormalizesExactlyWhen(others);
  }

  /** A stream of line feeds only, however it is cut, gives the leftmost split of its text. */
  lemma LineFeedStream(chunks: seq<string>)
    requires '\r' !in Concat(chunks)
    ensures Blocks(NormalizeEach(chunks)) == Blocks(Concat(chunks))
  {
    LineFeedsOnly(chunks);
    NormalizesExactlyWhen(chunks);
  }

  // ----- which cuts change the blocks

  /** How much of the text its blocks and their blank lines take up; the rest is the unfinished tail. */
  function Covered(s: string): (n: nat)
    ensures n <= |s|
    decreases |s|
  {
    var b := Boundary(s);
    if b < 0 then 0 else b + 2 + Covered(s[b + 2..])
  }

  /** `e` is `n` with carriage returns put before some of its line feeds. */
  predicate Padded(e: string, n: string)
    decreases |n|
  {
    if n == "" then e == ""
    else
      || (e != "" && e[0] == n[0] && Padded(e[1..], n[1..]))
      || (|e| >= 2 && n[0] == '\n' && e[..2] == "\r\n" && Padded(e[2..], n[1..]))
  }

  lemma {:induction false} PaddedSelf(n: string)
    ensures Padded(n, n)
  {
    if n != "" {
      PaddedSelf(n[1..]);
    }
  }

  lemma {:induction false} PaddedAfter(head: string, e: string, n: string)
    requires Padded(e, n)
    ensures Padded(head + e, head + n)
  {
    if head == "" {
      assert head + e == e && head + n == n;
    } else {
      PaddedAfter(head[1..], e, n);
      assert (head + e)[1..] == head[1..] + e && (head + n)[1..] == head[1..] + n;
    }
  }

  /** What follows a common beginning is padded as well. */
  lemma {:induction false} PaddedRest(e: string, n: string, i: nat)
    requires Padded(e, n) && i <= |e| && i <= |n| && e[..i] == n[..i]
    ensures Padded(e[i..], n[i..])
    decreases i
  {
    if i > 0 {
      assert e[0] == e[..i][0] == n[..i][0] == n[0];
      assert e[1..][..i - 1] == e[..i][1..] == n[..i][1..] == n[1..][..i - 1];
      PaddedRest(e[1..], n[1..], i - 1);
      assert e[1..][i - 1..] == e[i..] && n[1..][i - 1..] == n[i..];
    } else {
      assert e[i..] == e && n[i..] == n;
    }
  }

  lemma {:induction false} PaddedLonger(e: string, n: string)
    requires Padded(e, n)
    ensures |e| >= |n|
    decreases |n|
  {
    if n != "" {
      if e[0] == n[0] && Padded(e[1..], n[1..]) {
        PaddedLonger(e[1..], n[1..]);
      } else {
        PaddedLonger(e[2..], n[1..]);
      }
    }
  }

  /** Padding makes no blank line. */
  lemma {:induction false} PaddedKeepsTail(e: string, n: string)
    requires Padded(e, n) && NoBlankLine(n)
    ensures NoBlankLine(e)
    ensures e != "" && e[0] == '\n' ==> n != "" && n[0] == '\n'
    decreases |n|
  {
    if n != "" {
      var tail := if e[0] == n[0] && Padded(e[1..], n[1..]) then e[1..] else e[2..];
      assert NoBlankLine(n[1..]) by {
        assert forall i | 0 <= i < |n[1..]| :: n[1..][i] == n[i + 1];
      }
      PaddedKeepsTail(tail, n[1..]);
      NoBlankLineCons(e, tail, n);
    }
  }

  lemma NoBlankLineCons(e: string, tail: string, n: string)
    requires n != "" && NoBlankLine(n) && NoBlankLine(tail)
    requires tail != "" && tail[0] == '\n' ==> |n| > 1 && n[1] == '\n'
    requires || (e != "" && e[0] == n[0] && tail == e[1..])
             || (|e| >= 2 && n[0] == '\n' && e[..2] == "\r\n" && tail == e[2..])
    ensures NoBlankLine(e)
  {
    var k := |e| - |tail|;
    assert forall i | k <= i < |e| :: e[i] == tail[i - k];
    assert k == 2 ==> e[0] == e[..2][0] && e[1] == e[..2][1];
  }

  predicate SameUpTo(e: string, n: string, m: nat) {
    m <= |e| && m <= |n| && e[..m] == n[..m]
  }

  /** The padded text has the same blocks exactly when nothing was put into the part that the blocks cover. */
  lemma PaddedBlocks(e: string, n: string)
    requires Padded(e, n)
    ensures Blocks(e) == Blocks(n) <==> SameUpTo(e, n, Covered(n))
  {
    if Blocks(e) == Blocks(n) {
      BlocksFixText(e, n);
    }
    if SameUpTo(e, n, Covered(n)) {
      TextFixesBlocks(e, n);
    }
  }

  /** Texts with the same blocks agree where the blocks lie. */
  lemma {:induction false} BlocksFixText(e: string, n: string)
    requires Blocks(e) == Blocks(n)
    ensures SameUpTo(e, n, Covered(n))
    decreases |n|
  {
    var b := Boundary(n);
    if b >= 0 {
      OpenBlock(e, n, b);
      BlocksFixText(e[b + 2..], n[b + 2..]);
      CoverBlock(e, n, b);
    }
  }

  lemma CoverBlock(e: string, n: string, b: nat)
    requires Boundary(n) == b && SameUpTo(e, n, b + 2)
    requires SameUpTo(e[b + 2..], n[b + 2..], Covered(n[b + 2..]))
    ensures SameUpTo(e, n, Covered(n))
  {
    CoveredStep(n, b);
    JoinPrefix(e, n, b + 2, Covered(n[b + 2..]));
  }

  lemma OpenBlock(e: string, n: string, b: nat)
    requires Boundary(n) == b && Blocks(e) == Blocks(n)
    ensures SameUpTo(e, n, b + 2) && Blocks(e[b + 2..]) == Blocks(n[b + 2..])
  {
    var a := Boundary(e);
    assert a >= 0;
    SameHead(e[..a], n[..b], Blocks(e[a + 2..]), Blocks(n[b + 2..]));
    assert |e[..a]| == |n[..b]|;
    BlankLineAfter(e, n, b);
  }

  lemma SameHead(x: string, y: string, xs: seq<string>, ys: seq<string>)
    requires [x] + xs == [y] + ys
    ensures x == y && xs == ys
  {
    assert ([x] + xs)[0] == x && ([y] + ys)[0] == y;
    assert ([x] + xs)[1..] == xs && ([y] + ys)[1..] == ys;
  }

  lemma BlankLineAfter(e: string, n: string, b: nat)
    requires Boundary(e) == b && Boundary(n) == b && e[..b] == n[..b]
    ensures SameUpTo(e, n, b + 2)
  {
    assert e[..b + 2] == e[..b] + "\n\n" && n[..b + 2] == n[..b] + "\n\n";
  }

  /** A padded text that agrees where the blocks lie has the same blocks: padding makes none in the tail. */
  lemma {:induction false} TextFixesBlocks(e: string, n: string)
    requires Padded(e, n) && SameUpTo(e, n, Covered(n))
    ensures Blocks(e) == Blocks(n)
    decreases |n|
  {
    var b := Boundary(n);
    if b < 0 {
      TailHasNone(e, n);
    } else {
      UncoverBlock(e, n, b);
      PaddedRest(e, n, b + 2);
      TextFixesBlocks(e[b + 2..], n[b + 2..]);
      CloseBlock(e, n, b);
    }
  }

  lemma UncoverBlock(e: string, n: string, b: nat)
    requires Boundary(n) == b && SameUpTo(e, n, Covered(n))
    ensures SameUpTo(e, n, b + 2) && SameUpTo(e[b + 2..], n[b + 2..], Covered(n[b + 2..]))
  {
    CoveredStep(n, b);
    CutPrefix(e, n, b + 2, Covered(n[b + 2..]));
  }

  lemma CloseBlock(e: string, n: string, b: nat)
    requires Boundary(n) == b && SameUpTo(e, n, b + 2) && Blocks(e[b + 2..]) == Blocks(n[b + 2..])
    ensures Blocks(e) == Blocks(n)
  {
    SameBoundary(e, n, b);
    ShorterPrefix(e, n, b, b + 2);
  }

  lemma CoveredStep(n: string, b: nat)
    requires Boundary(n) == b
    ensures Covered(n) == b + 2 + Covered(n[b + 2..])
  {
    assert Covered(n) == Boundary(n) + 2 + Covered(n[Boundary(n) + 2..]);
  }

  lemma TailHasNone(e: string, n: string)
    requires Padded(e, n) && Boundary(n) < 0
    ensures Blocks(e) == [] && Blocks(n) == [] && Covered(n) == 0 && SameUpTo(e, n, 0)
  {
    Leftmost(n);
    PaddedKeepsTail(e, n);
    assert Boundary(e) < 0;
  }

  lemma ShorterPrefix(e: string, n: string, k: nat, m: nat)
    requires k <= m && SameUpTo(e, n, m)
    ensures SameUpTo(e, n, k)
  {
    assert e[..k] == e[..m][..k] && n[..k] == n[..m][..k];
  }

  lemma SameBoundary(e: string, n: string, b: nat)
    requires Boundary(n) == b && SameUpTo(e, n, b + 2)
    ensures Boundary(e) == b
  {
    Leftmost(n);
    assert forall i | 0 <= i < b + 2 :: e[i] == e[..b + 2][i] && n[i] == n[..b + 2][i];
    BoundaryFirst(e, b);
  }

  lemma JoinPrefix(e: string, n: string, k: nat, m: nat)
    requires SameUpTo(e, n, k) && SameUpTo(e[k..], n[k..], m)
    ensures SameUpTo(e, n, k + m)
  {
    assert e[..k + m] == e[..k] + e[k..][..m] && n[..k + m] == n[..k] + n[k..][..m];
  }

  lemma CutPrefix(e: string, n: string, k: nat, m: nat)
    requires SameUpTo(e, n, k + m)
    ensures SameUpTo(e, n, k) && SameUpTo(e[k..], n[k..], m)
  {
    ShorterPrefix(e, n, k, k + m);
    assert e[k..][..m] == e[..k + m][k..] && n[k..][..m] == n[..k + m][k..];
  }

  /** Every cut that splits a CR LF pair falls at or after position `m` of the normalized text. */
  predicate CutsAfter(chunks: seq<string>, m: int) {
    chunks != [] ==>
      var size, splits := |Normalize(chunks[0])|, SplitsPair(chunks[0], Concat(chunks[1..]));
      && (splits ==> size - 1 >= m)
      && CutsAfter(chunks[1..], m - if splits then size - 1 else size)
  }

  lemma {:induction false} LastReturnKept(a: string)
    requires a != "" && a[|a| - 1] == '\r'
    ensures Normalize(a) == Normalize(a[..|a| - 1]) + "\r"
  {
    var front := a[..|a| - 1];
    NormalizeConcat(front, "\r");
    assert front + "\r" == a && Normalize("\r") == "\r";
  }

  lemma {:induction false} CutsAfterNothing(chunks: seq<string>, m: int)
    requires m <= 0
    ensures CutsAfter(chunks, m)
  {
    if chunks != [] {
      var splits := SplitsPair(chunks[0], Concat(chunks[1..]));
      if splits {
        LastReturnKept(chunks[0]);
      }
      CutsAfterNothing(chunks[1..], m - if splits then |Normalize(chunks[0])| - 1 else |Normalize(chunks[0])|);
    }
  }

  lemma {:induction false} StartsWithLineFeed(chunks: seq<string>)
    requires Concat(chunks) != "" && Concat(chunks)[0] == '\n'
    ensures NormalizeEach(chunks) != "" && NormalizeEach(chunks)[0] == '\n'
  {
    if chunks[0] == "" {
      assert Concat(chunks) == Concat(chunks[1..]) && NormalizeEach(chunks) == NormalizeEach(chunks[1..]);
      StartsWithLineFeed(chunks[1..]);
    } else {
      LineFeedKept(chunks[0]);
    }
  }

  lemma PairAcross(front: string, whole: string)
    requires whole != "" && whole[0] == '\n'
    ensures Normalize(front + ("\r" + whole)) == Normalize(front) + Normalize(whole)
  {
    var pair := "\r" + whole;
    LineFeedKept(whole);
    assert pair[2..] == whole[1..];
    assert Normalize(pair) == Normalize(whole);
    NormalizeConcat(front, pair);
  }

  /** Across a split pair, the reader keeps the carriage return that the whole text loses. */
  lemma SplitKeepsReturn(c: string, rest: seq<string>)
    requires SplitsPair(c, Concat(rest))
    ensures |Normalize(c)| == |Normalize(c[..|c| - 1])| + 1
    ensures Normalize(c + Concat(rest)) == Normalize(c[..|c| - 1]) + Normalize(Concat(rest))
    ensures Normalize(c) + NormalizeEach(rest) == Normalize(c[..|c| - 1]) + ("\r" + NormalizeEach(rest))
    ensures Normalize(Concat(rest)) != "" && Normalize(Concat(rest))[0] == '\n'
  {
    ReturnKept(c, NormalizeEach(rest));
    ReturnDropped(c, Concat(rest));
  }

  lemma ReturnKept(c: string, e: string)
    requires c != "" && c[|c| - 1] == '\r'
    ensures |Normalize(c)| == |Normalize(c[..|c| - 1])| + 1
    ensures Normalize(c) + e == Normalize(c[..|c| - 1]) + ("\r" + e)
  {
    LastReturnKept(c);
    JoinAgain(Normalize(c[..|c| - 1]), "\r", e);
  }

  lemma JoinAgain(a: string, b: string, c: string)
    ensures (a + b) + c == a + (b + c)
  {
  }

  lemma ReturnDropped(c: string, whole: string)
    requires SplitsPair(c, whole)
    ensures Normalize(c + whole) == Normalize(c[..|c| - 1]) + Normalize(whole)
    ensures Normalize(whole) != "" && Normalize(whole)[0] == '\n'
  {
    var front := c[..|c| - 1];
    LineFeedKept(whole);
    assert c + whole == front + ("\r" + whole) by {
      JoinAgain(front, "\r", whole);
      assert c == front + "\r";
    }
    PairAcross(front, whole);
  }

  lemma {:induction false} PaddedChunks(chunks: seq<string>)
    ensures Padded(NormalizeEach(chunks), Normalize(Concat(chunks)))
  {
    if chunks != [] {
      var c, rest := chunks[0], chunks[1..];
      PaddedChunks(rest);
      if SplitsPair(c, Concat(rest)) {
        SplitKeepsReturn(c, rest);
        StartsWithLineFeed(rest);
        PadFirst(NormalizeEach(rest), Normalize(Concat(rest)));
        PaddedAfter(Normalize(c[..|c| - 1]), "\r" + NormalizeEach(rest), Normalize(Concat(rest)));
      } else {
        NormalizeConcat(c, Concat(rest));
        PaddedAfter(Normalize(c), NormalizeEach(rest), Normalize(Concat(rest)));
      }
    }
  }

  lemma PadFirst(e: string, n: string)
    requires Padded(e, n) && e != "" && e[0] == '\n' && n != "" && n[0] == '\n'
    ensures Padded("\r" + e, n)
  {
    var padded := "\r" + e;
    assert padded[..2] == "\r\n" && padded[2..] == e[1..];
    if |e| >= 2 {
      assert e[..2][0] == '\n';
    }
  }

  /** Chunkwise and whole normalization agree up to a position exactly when no earlier cut splits a pair. */
  lemma {:induction false} AgreeExactlyUpTo(chunks: seq<string>, m: nat)
    requires m <= |Normalize(Concat(chunks))|
    ensures SameUpTo(NormalizeEach(chunks), Normalize(Concat(chunks)), m) <==> CutsAfter(chunks, m)
  {
    if chunks != [] {
      var c, rest := chunks[0], chunks[1..];
      if SplitsPair(c, Concat(rest)) {
        AgreeBeforeSplit(c, rest, m);
        if m <= |Normalize(c)| - 1 {
          CutsAfterNothing(rest, m - (|Normalize(c)| - 1));
        }
      } else {
        var size := |Normalize(c)|;
        AgreeAfterClean(c, rest, m);
        if m <= size {
          CutsAfterNothing(rest, m - size);
        } else {
          AgreeExactlyUpTo(rest, m - size);
        }
      }
    }
  }

  lemma AgreeAfterClean(c: string, rest: seq<string>, m: nat)
    requires !SplitsPair(c, Concat(rest))
    ensures |Normalize(c + Concat(rest))| == |Normalize(c)| + |Normalize(Concat(rest))|
    ensures SameUpTo(Normalize(c) + NormalizeEach(rest), Normalize(c + Concat(rest)), m) <==>
      m <= |Normalize(c)| || SameUpTo(NormalizeEach(rest), Normalize(Concat(rest)), m - |Normalize(c)|)
  {
    NormalizeConcat(c, Concat(rest));
    if m <= |Normalize(c)| {
      WithinCommon(Normalize(c), NormalizeEach(rest), Normalize(Concat(rest)), m);
    } else {
      AfterCommon(Normalize(c), NormalizeEach(rest), Normalize(Concat(rest)), m - |Normalize(c)|);
    }
  }

  lemma AgreeBeforeSplit(c: string, rest: seq<string>, m: nat)
    requires SplitsPair(c, Concat(rest)) && m <= |Normalize(c + Concat(rest))|
    ensures SameUpTo(Normalize(c) + NormalizeEach(rest), Normalize(c + Concat(rest)), m) <==> m <= |Normalize(c)| - 1
  {
    SplitKeepsReturn(c, rest);
    FirstDifference(Normalize(c[..|c| - 1]), "\r" + NormalizeEach(rest), Normalize(Concat(rest)), m);
  }

  lemma WithinCommon(front: string, e: string, n: string, m: nat)
    requires m <= |front|
    ensures SameUpTo(front + e, front + n, m)
  {
    assert (front + e)[..m] == front[..m] == (front + n)[..m];
  }

  lemma FirstDifference(front: string, e: string, n: string, m: nat)
    requires e != "" && n != "" && e[0] != n[0] && m <= |front + n|
    ensures SameUpTo(front + e, front + n, m) <==> m <= |front|
  {
    if m <= |front| {
      assert (front + e)[..m] == front[..m] == (front + n)[..m];
    } else {
      assert (front + n)[..m][|front|] == n[0];
      assert m <= |front + e| ==> (front + e)[..m][|front|] == e[0];
    }
  }

  lemma AfterCommon(front: string, e: string, n: string, m: nat)
    ensures SameUpTo(front + e, front + n, |front| + m) <==> SameUpTo(e, n, m)
  {
    var a, b := front + e, front + n;
    assert a[..|front|] == front == b[..|front|];
    assert a[|front|..] == e && b[|front|..] == n;
    if SameUpTo(e, n, m) {
      JoinPrefix(a, b, |front|, m);
    }
    if SameUpTo(a, b, |front| + m) {
      CutPrefix(a, b, |front|, m);
    }
  }

  /**
   However a text is cut, its blocks are those of the whole text exactly when every cut that splits a
   CR LF pair falls after the last blank line, in the unfinished tail.
   */
  lemma BlocksKeptExactlyWhen(chunks: seq<string>)
    ensures Blocks(NormalizeEach(chunks)) == Blocks(Normalize(Concat(chunks)))
      <==> CutsAfter(chunks, Covered(Normalize(Concat(chunks))))
  {
    PaddedChunks(chunks);
    PaddedBlocks(NormalizeEach(chunks), Normalize(Concat(chunks)));
    AgreeExactlyUpTo(chunks, Covered(Normalize(Concat(chunks))));
  }

  /** One text, whole and cut inside a CR LF pair: whole it holds a block, cut it holds none. */
  lemma SplitPairLosesBlock()
    ensures Concat(["a\r\n\r\nb"]) == Concat(["a\r\n\r", "\nb"])
    ensures Blocks(NormalizeEach(["a\r\n\r\nb"])) == ["a"]
    ensures Blocks(NormalizeEach(["a\r\n\r", "\nb"])) == []
  {
    WholeHasBlock("a\r\n\r\nb");
    CutHasNone("a\r\n\r", "\nb");
    assert ["a\r\n\r", "\nb"][1..] == ["\nb"];
    assert Concat(["\nb"]) == "\nb";
  }

  lemma WholeHasBlock(whole: string)
    requires whole == "a\r\n\r\nb"
    ensures Blocks(NormalizeEach([whole])) == ["a"]
  {
    var two := "\r\nb";
    var four := "\r\n\r\nb";
    assert whole[1..] == four && four[2..] == two && two[2..] == "b";
    assert Normalize(two) == "\nb";
    assert Normalize(four) == "\n\nb";
    assert Normalize(whole) == "a\n\nb";
    var text := "a\n\nb";
    assert NormalizeEach([whole]) == text;
    BoundaryFirst(text, 1);
    assert text[3..] == "b" && text[..1] == "a";
    assert Blocks("b") == [];
  }

  lemma CutHasNone(first: string, second: string)
    requires first == "a\r\n\r" && second == "\nb"
    ensures Blocks(NormalizeEach([first, second])) == []
  {
    var three := "\r\n\r";
    assert first[1..] == three && three[2..] == "\r";
    assert Normalize(three) == "\n\r";
    assert Normalize(first) == "a\n\r";
    assert second[1..] == "b" && Normalize(second) == "\nb";
    assert [first, second][1..] == [second];
    assert NormalizeEach([second]) == "\nb";
    assert NormalizeEach([first, second]) == "a\n\r\nb";
    assert Boundary("a\n\r\nb") < 0;
  }

  // ----- parsing and delivery

  datatype RunEvent = RunEvent(sequence: nat, eventId: string, terminal: bool, payload: string)

  /** `parseEventBlock`: an event, no data, or text that is not JSON. */
  datatype Parsed = Event(event: RunEvent) | NoData | Throws

  /** The events of the blocks, up to the first one that cannot be parsed. */
  function EventsOf(parse: string -> Parsed, blocks: seq<string>): seq<RunEvent> {
    if blocks == [] then []
    else
      match parse(blocks[0])
      case Event(e) => [e] + EventsOf(parse, blocks[1..])
      case NoData => EventsOf(parse, blocks[1..])
      case Throws => []
  }

  predicate AllParse(parse: string -> Parsed, blocks: seq<string>) {
    forall b | b in blocks :: !parse(b).Throws?
  }

  /** Reading on after some blocks: their events, then the rest unless one of them could not be parsed. */
  lemma {:induction false} EventsJoin(parse: string -> Parsed, blocks: seq<string>, more: seq<string>)
    ensures EventsOf(parse, blocks + more)
         == EventsOf(parse, blocks) + if AllParse(parse, blocks) then EventsOf(parse, more) else []
  {
    if blocks == [] {
      assert blocks + more == more;
    } else {
      EventsJoin(parse, blocks[1..], more);
      assert (blocks + more)[1..] == blocks[1..] + more;
      assert blocks == [blocks[0]] + blocks[1..];
    }
  }

  /** An event is received exactly if some block holds it and none before that block fails to parse. */
  lemma {:induction false} EventReceived(parse: string -> Parsed, blocks: seq<string>, e: RunEvent)
    ensures e in EventsOf(parse, blocks) <==>
      exists i :: 0 <= i < |blocks| && parse(blocks[i]) == Event(e) && AllParse(parse, blocks[..i])
  {
    if blocks != [] {
      var rest := blocks[1..];
      EventReceived(parse, rest, e);
      if i :|
        && 0 <= i < |rest| && parse(rest[i]) == Event(e) && AllParse(parse, rest[..i])
        && !parse(blocks[0]).Throws?
      {
        assert blocks[..i + 1] == [blocks[0]] + rest[..i] && blocks[i + 1] == rest[i];
      }
      if i :| 0 <= i < |blocks| && parse(blocks[i]) == Event(e) && AllParse(parse, blocks[..i]) {
        if i > 0 {
          assert blocks[..i] == [blocks[0]] + rest[..i - 1] && rest[i - 1] == blocks[i];
          assert blocks[0] in blocks[..i];
        }
      }
      assert blocks[..0] == [];
    }
  }

  /** What one connection yields. */
  function Received(parse: string -> Parsed, chunks: seq<string>): seq<RunEvent> {
    EventsOf(parse, Blocks(NormalizeEach(chunks)))
  }

  function Digit(d: nat): char
    requires d < 10
  {
    '0' + d as char
  }

  function Decimal(n: nat): string {
    if n < 10 then [Digit(n)] else Decimal(n / 10) + [Digit(n % 10)]
  }

  function KeyOf(e: RunEvent): string {
    Decimal(e.sequence) + ":" + e.eventId
  }

  lemma {:induction false} DecimalHasNoColon(n: nat)
    ensures Decimal(n) != "" && ':' !in Decimal(n)
  {
    if n >= 10 {
      DecimalHasNoColon(n / 10);
    }
  }

  lemma {:induction false} DecimalInjective(m: nat, n: nat)
    requires Decimal(m) == Decimal(n)
    ensures m == n
    decreases m
  {
    DecimalHasNoColon(m / 10);
    DecimalHasNoColon(n / 10);
    var last := Decimal(m)[|Decimal(m)| - 1];
    assert last == Digit(m % 10) && last == Digit(n % 10);
    if m >= 10 && n >= 10 {
      assert Decimal(m)[..|Decimal(m)| - 1] == Decimal(m / 10);
      assert Decimal(n)[..|Decimal(n)| - 1] == Decimal(n / 10);
      DecimalInjective(m / 10, n / 10);
    }
  }

  lemma FirstCharacter(m: string, x: string)
    ensures (m + ":" + x)[0] == if m == "" then ':' else m[0]
    ensures (m + ":" + x)[1..] == if m == "" then x else m[1..] + ":" + x
  {
  }

  lemma {:induction false} ColonSeparates(m: string, x: string, n: string, y: string)
    requires ':' !in m && ':' !in n && m + ":" + x == n + ":" + y
    ensures m == n && x == y
    decreases |m|
  {
    FirstCharacter(m, x);
    FirstCharacter(n, y);
    if m != "" && n != "" {
      ColonSeparates(m[1..], x, n[1..], y);
      assert m == [m[0]] + m[1..] && n == [n[0]] + n[1..];
    }
  }

  /** A key names one sequence number and one event id. */
  lemma KeyInjective(d: RunEvent, e: RunEvent)
    requires KeyOf(d) == KeyOf(e)
    ensures d.sequence == e.sequence && d.eventId == e.eventId
  {
    DecimalHasNoColon(d.sequence);
    DecimalHasNoColon(e.sequence);
    ColonSeparates(Decimal(d.sequence), d.eventId, Decimal(e.sequence), e.eventId);
    DecimalInjective(d.sequence, e.sequence);
  }

  function KeysOf(es: seq<RunEvent>): set<string> {
    set e | e in es :: KeyOf(e)
  }

  /** The events whose key did not occur earlier. */
  function FirstOccurrences(es: seq<RunEvent>): seq<RunEvent> {
    if es == [] then []
    else
      var earlier, last := es[..|es| - 1], es[|es| - 1];
      FirstOccurrences(earlier) + if KeyOf(last) in KeysOf(earlier) then [] else [last]
  }

  predicate AnyTerminal(es: seq<RunEvent>) {
    exists e | e in es :: e.terminal
  }

  /** Each key is delivered once, every key received is delivered, and nothing else is. */
  lemma {:induction false} EachOnce(es: seq<RunEvent>)
    ensures var d := FirstOccurrences(es);
            KeysOf(d) == KeysOf(es)
            && KeysDistinct(d)
            && (forall e | e in d :: e in es)
  {
    if es != [] {
      var earlier, last := es[..|es| - 1], es[|es| - 1];
      EachOnce(earlier);
      assert es == earlier + [last];
      KeysAppended(earlier, last);
      var d := FirstOccurrences(earlier);
      if KeyOf(last) !in KeysOf(earlier) {
        KeysAppended(d, last);
        DistinctAppended(d, last);
      }
    }
  }

  ghost predicate KeysDistinct(es: seq<RunEvent>) {
    forall i, j | 0 <= i < j < |es| :: KeyOf(es[i]) != KeyOf(es[j])
  }

  lemma DistinctAppended(es: seq<RunEvent>, event: RunEvent)
    requires KeysDistinct(es) && KeyOf(event) !in KeysOf(es)
    ensures KeysDistinct(es + [event])
  {
    KeysAppended(es, event);
  }

  lemma KeysAppended(es: seq<RunEvent>, event: RunEvent)
    ensures KeysOf(es + [event]) == KeysOf(es) + {KeyOf(event)}
    ensures forall i | 0 <= i < |es| :: KeyOf(es[i]) in KeysOf(es)
  {
    assert forall e :: e in es + [event] <==> e in es || e == event;
  }

  /** Of the events with one key, the earliest is delivered. */
  lemma {:induction false} EarliestDelivered(es: seq<RunEvent>, i: nat)
    requires i < |es| && KeyOf(es[i]) !in KeysOf(es[..i])
    ensures es[i] in FirstOccurrences(es)
  {
    var earlier := es[..|es| - 1];
    if i < |es| - 1 {
      assert earlier[..i] == es[..i];
      EarliestDelivered(earlier, i);
    }
  }

  /** Later events only add deliveries at the end. */
  lemma {:induction false} DeliveriesGrow(es: seq<RunEvent>, n: nat)
    requires n <= |es|
    ensures FirstOccurrences(es[..n]) <= FirstOccurrences(es)
  {
    if n < |es| {
      var earlier := es[..|es| - 1];
      assert earlier[..n] == es[..n];
      DeliveriesGrow(earlier, n);
    } else {
      assert es[..n] == es;
    }
  }

  lemma OneMoreEvent(es: seq<RunEvent>, event: RunEvent)
    ensures KeysOf(es + [event]) == KeysOf(es) + {KeyOf(event)}
    ensures FirstOccurrences(es + [event]) == FirstOccurrences(es) + if KeyOf(event) in KeysOf(es) then [] else [event]
  {
    assert (es + [event])[..|es|] == es;
    KeysAppended(es, event);
  }

  lemma TerminalAppended(es: seq<RunEvent>, event: RunEvent)
    ensures AnyTerminal(es + [event]) <==> AnyTerminal(es) || event.terminal
  {
    assert forall e :: e in es + [event] <==> e in es || e == event;
  }

  /** The state a subscription keeps across connections. */
  class Subscription {
    var seen: set<string>
    var terminal: bool
    var delivered: seq<RunEvent>

    /** The state after the events `es`, received over any number of connections. */
    ghost predicate After(es: seq<RunEvent>)
      reads this
    {
      seen == KeysOf(es) && delivered == FirstOccurrences(es) && terminal == AnyTerminal(delivered)
    }

    constructor ()
      ensures After([])
    {
      seen, terminal, delivered := {}, false, [];
    }

    method Deliver(event: RunEvent, ghost es: seq<RunEvent>)
      requires After(es)
      modifies this
      ensures After(es + [event])
    {
      OneMoreEvent(es, event);
      var key := KeyOf(event);
      if key in seen {
        return;
      }
      seen := seen + {key};
      ghost var earlier := delivered;
      delivered := delivered + [event];
      TerminalAppended(earlier, event);
      if event.terminal {
        terminal := true;
      }
    }

    /** One block: delivered, skipped, or the end of the connection. */
    method Handle(block: string, parse: string -> Parsed, ghost es: seq<RunEvent>) returns (ok: bool)
      requires After(es)
      modifies this
      ensures ok <==> !parse(block).Throws?
      ensures After(es + EventsOf(parse, [block]))
    {
      match parse(block) {
        case Event(event) =>
          Deliver(event, es);
          assert EventsOf(parse, [block]) == [event];
          return true;
        case NoData =>
          assert es + EventsOf(parse, [block]) == es;
          return true;
        case Throws =>
          assert es + EventsOf(parse, [block]) == es;
          return false;
      }
    }

    /** Every complete block leaves the buffer; what is still to come does not change which blocks those are. */
    method Drain(text: string, parse: string -> Parsed, ghost es: seq<RunEvent>, ghost rest: string)
      returns (buffer: string, ok: bool, ghost got: seq<RunEvent>)
      requires After(es)
      modifies this
      ensures After(got)
      ensures ok ==> Boundary(buffer) < 0
      ensures got + (if ok then EventsOf(parse, Blocks(buffer + rest)) else [])
           == es + EventsOf(parse, Blocks(text + rest))
    {
      buffer, ok, got := text, true, es;
      var boundary := Boundary(buffer);
      while boundary >= 0
        invariant boundary == Boundary(buffer) && ok
        invariant After(got)
        invariant got + EventsOf(parse, Blocks(buffer + rest)) == es + EventsOf(parse, Blocks(text + rest))
        decreases |buffer|
      {
        TakeBlock(buffer, rest);
        var block := buffer[..boundary];
        buffer := buffer[boundary + 2..];
        ok := Handle(block, parse, got);
        OneBlock(parse, got, block, Blocks(buffer + rest));
        got := got + EventsOf(parse, [block]);
        if !ok {
          return;
        }
        boundary := Boundary(buffer);
      }
    }

    /** One connection: chunks come in, blocks go out as soon as they are complete. */
    method Consume(chunks: seq<string>, parse: string -> Parsed, ghost es: seq<RunEvent>)
      requires After(es)
      modifies this
      ensures After(es + Received(parse, chunks))
    {
      var buffer := "";
      ghost var got := es;
      ghost var whole := es + Received(parse, chunks);
      assert chunks[0..] == chunks && "" + NormalizeEach(chunks) == NormalizeEach(chunks);
      for i := 0 to |chunks|
        invariant Boundary(buffer) < 0
        invariant After(got) && got + EventsOf(parse, Blocks(buffer + NormalizeEach(chunks[i..]))) == whole
      {
        ghost var rest := NormalizeEach(chunks[i + 1..]);
        assert chunks[i..][1..] == chunks[i + 1..];
        assert buffer + (Normalize(chunks[i]) + rest) == buffer + Normalize(chunks[i]) + rest;
        var ok;
        buffer, ok, got := Drain(buffer + Normalize(chunks[i]), parse, got, rest);
        if !ok {
          assert got + [] == got;
          return;
        }
      }
      assert buffer + "" == buffer && got + [] == got;
    }
  }

  lemma OneBlock(parse: string -> Parsed, got: seq<RunEvent>, block: string, later: seq<string>)
    ensures got + EventsOf(parse, [block] + later)
         == got + EventsOf(parse, [block]) + if parse(block).Throws? then [] else EventsOf(parse, later)
  {
    assert ([block] + later)[1..] == later;
  }

  // ----- reconnecting

  function Across(parse: string -> Parsed, connections: seq<seq<string>>): seq<RunEvent> {
    if connections == [] then []
    else Across(parse, connections[..|connections| - 1]) + Received(parse, connections[|connections| - 1])
  }

  lemma OneMoreConnection(parse: string -> Parsed, connections: seq<seq<string>>, used: nat)
    requires used < |connections|
    ensures Across(parse, connections[..used + 1])
         == Across(parse, connections[..used]) + Received(parse, connections[used])
  {
    assert connections[..used + 1][..used] == connections[..used];
  }

  /**
   `subscribe` until it is aborted or a terminal event arrives: a connection is opened only if
   none before it brought a terminal event.
   */
  method Subscribe(connections: seq<seq<string>>, parse: string -> Parsed) returns (delivered: seq<RunEvent>, used: nat)
    ensures used <= |connections|
    ensures delivered == FirstOccurrences(Across(parse, connections[..used]))
    ensures used < |connections| ==> AnyTerminal(delivered)
    ensures used > 0 ==> !AnyTerminal(FirstOccurrences(Across(parse, connections[..used - 1])))
  {
    var subscription := new Subscription();
    used := 0;
    assert connections[..0] == [];
    while used < |connections| && !subscription.terminal
      invariant used <= |connections|
      invariant subscription.After(Across(parse, connections[..used]))
      invariant used > 0 ==> !AnyTerminal(FirstOccurrences(Across(parse, connections[..used - 1])))
    {
      OneMoreConnection(parse, connections, used);
      subscription.Consume(connections[used], parse, Across(parse, connections[..used]));
      used := used + 1;
    }
    delivered := subscription.delivered;
  }
}
