/**
  `streamApiEvents`: reading a stream of server-sent events (section 9.2.5 of the WHATWG HTML Standard)
  from text that arrives in arbitrary pieces. A block ends at two consecutive line ends, each LF or CRLF.
*/
module EventStream {
  import opened Wrappers

  /** The two separators of the reader: `\r?\n` between lines and `\r?\n\r?\n` between blocks. */
  datatype Separator = Line | Block

  function LineEnd(s: string, i: nat): nat {
    if i < |s| && s[i] == '\n' then 1
    else if i + 1 < |s| && s[i] == '\r' && s[i + 1] == '\n' then 2
    else 0
  }

  /** The length of the separator that starts at `i`, 0 if none does. */
  function Match(sep: Separator, s: string, i: nat): (n: nat)
    ensures n > 0 ==> i + n <= |s| && s[i + n - 1] == '\n'
  {
    var a := LineEnd(s, i);
    if sep.Line? || a == 0 then a
    else
      var b := LineEnd(s, i + a);
      if b == 0 then 0 else a + b
  }

  /** Where the leftmost separator at or after `i` starts, |s| if there is none. */
  function First(sep: Separator, s: string, i: nat): (j: nat)
    requires i <= |s|
    ensures i <= j <= |s|
    ensures forall k :: i <= k < j ==> Match(sep, s, k) == 0
    ensures j < |s| ==> Match(sep, s, j) > 0
    decreases |s| - i
  {
    if i == |s| || Match(sep, s, i) > 0 then i else First(sep, s, i + 1)
  }

  datatype Cut = Cut(piece: string, sep: string, rest: string)

  /** The text before the leftmost separator, that separator, and the text after it. */
  function CutOff(sep: Separator, s: string): (c: Option<Cut>)
    ensures c.Some? ==> |c.value.rest| < |s|
  {
    var j := First(sep, s, 0);
    if j == |s| then None
    else
      var n := Match(sep, s, j);
      Some(Cut(s[..j], s[j..j + n], s[j + n..]))
  }

  /** Splitting a whole text at once. */
  function Split(sep: Separator, s: string): (pieces: seq<string>)
    ensures |pieces| > 0
    decreases |s|
  {
    var c := CutOff(sep, s);
    if c.None? then [s] else [c.value.piece] + Split(sep, c.value.rest)
  }

  // ---------------------------------------------------------------- what splitting means

  function Separators(sep: Separator, s: string): (ds: seq<string>)
    ensures |ds| + 1 == |Split(sep, s)|
    decreases |s|
  {
    var c := CutOff(sep, s);
    if c.None? then [] else [c.value.sep] + Separators(sep, c.value.rest)
  }

  function Weave(pieces: seq<string>, ds: seq<string>): string
    requires |pieces| == |ds| + 1
  {
    if ds == [] then pieces[0] else pieces[0] + ds[0] + Weave(pieces[1..], ds[1..])
  }

  /** `p` runs up to the leftmost separator of `p + d`, which is `d`. */
  ghost predicate EndsAt(sep: Separator, p: string, d: string) {
    |d| > 0 && First(sep, p + d, 0) == |p| && Match(sep, p + d, |p|) == |d|
  }

  ghost predicate Unbroken(sep: Separator, p: string) {
    First(sep, p, 0) == |p|
  }

  lemma UnbrokenHasNoCut(sep: Separator, p: string)
    ensures CutOff(sep, p).None? <==> Unbroken(sep, p)
    ensures Unbroken(sep, p) ==> Split(sep, p) == [p] && Separators(sep, p) == []
  {
  }

  ghost predicate ExactPieces(sep: Separator, pieces: seq<string>, ds: seq<string>) {
    && |pieces| == |ds| + 1
    && (forall k :: 0 <= k < |ds| ==> EndsAt(sep, pieces[k], ds[k]))
    && Unbroken(sep, Last(pieces))
  }

  /**
    No text is lost or moved: the pieces and the separators between them make up the text, each piece
    runs up to the leftmost separator that follows it, and the last piece contains none.
  */
  lemma {:induction false} SplitIsExact(sep: Separator, s: string)
    ensures Weave(Split(sep, s), Separators(sep, s)) == s
    ensures ExactPieces(sep, Split(sep, s), Separators(sep, s))
    decreases |s|
  {
    match CutOff(sep, s) {
      case None =>
        UnbrokenHasNoCut(sep, s);
      case Some(c) =>
        CutIsTight(sep, s, c);
        CutSays(sep, s, c);
        SplitIsExact(sep, c.rest);
        ExactAdds(sep, c.piece, c.sep, Split(sep, c.rest), Separators(sep, c.rest));
    }
  }

  lemma ExactAdds(sep: Separator, p: string, d: string, pieces: seq<string>, ds: seq<string>)
    requires ExactPieces(sep, pieces, ds) && EndsAt(sep, p, d)
    ensures ExactPieces(sep, [p] + pieces, [d] + ds)
    ensures Weave([p] + pieces, [d] + ds) == p + d + Weave(pieces, ds)
  {
    assert ([p] + pieces)[1..] == pieces && ([d] + ds)[1..] == ds;
  }

  lemma MatchIsLocal(sep: Separator, a: string, b: string, i: nat)
    ensures Match(sep, a, i) > 0 ==> Match(sep, a + b, i) == Match(sep, a, i)
    ensures Match(sep, a + b, i) > 0 && i + Match(sep, a + b, i) <= |a| ==> Match(sep, a, i) == Match(sep, a + b, i)
  {
  }

  lemma FirstIs(sep: Separator, s: string, j: nat)
    requires j < |s| && Match(sep, s, j) > 0
    requires forall k :: 0 <= k < j ==> Match(sep, s, k) == 0
    ensures First(sep, s, 0) == j
  {
  }

  lemma CutSays(sep: Separator, s: string, c: Cut)
    requires CutOff(sep, s) == Some(c)
    ensures s == c.piece + c.sep + c.rest && |c.sep| > 0
    ensures First(sep, s, 0) == |c.piece| && Match(sep, s, |c.piece|) == |c.sep|
  {
    var j := First(sep, s, 0);
    ThreeParts(s, j, Match(sep, s, j));
  }

  lemma ThreeParts(s: string, j: nat, n: nat)
    requires j + n <= |s|
    ensures s == s[..j] + s[j..j + n] + s[j + n..]
  {
  }

  lemma CutMeans(sep: Separator, s: string, piece: string, d: string, rest: string)
    requires s == piece + d + rest && |d| > 0
    requires First(sep, s, 0) == |piece| && Match(sep, s, |piece|) == |d|
    ensures CutOff(sep, s) == Some(Cut(piece, d, rest))
  {
    var j, n := |piece|, |d|;
    assert s[..j] == piece && s[j..j + n] == d && s[j + n..] == rest;
  }

  lemma CutIsTight(sep: Separator, s: string, c: Cut)
    requires CutOff(sep, s) == Some(c)
    ensures EndsAt(sep, c.piece, c.sep)
  {
    CutSays(sep, s, c);
    FirstInCut(sep, s, c.piece + c.sep, c.rest, |c.piece|);
  }

  lemma FirstInCut(sep: Separator, s: string, t: string, rest: string, j: nat)
    requires s == t + rest && j < |t| && First(sep, s, 0) == j && j + Match(sep, s, j) == |t|
    ensures First(sep, t, 0) == j && Match(sep, t, j) == Match(sep, s, j)
  {
    MatchIsLocal(sep, t, rest, j);
    MatchIsLocal(sep, t, rest, First(sep, t, 0));
  }

  // ---------------------------------------------------------------- splitting piece by piece

  /** Two separators never nest: the one that starts first does not end after the other. */
  lemma EarlierEndsEarlier(sep: Separator, s: string, k: nat, j: nat)
    requires k < j && Match(sep, s, k) > 0 && Match(sep, s, j) > 0
    ensures k + Match(sep, s, k) <= j + Match(sep, s, j)
  {
  }

  /** A separator found in a prefix is still the leftmost one when more text follows. */
  lemma FirstIsStable(sep: Separator, a: string, b: string)
    requires First(sep, a, 0) < |a|
    ensures First(sep, a + b, 0) == First(sep, a, 0)
    ensures Match(sep, a + b, First(sep, a, 0)) == Match(sep, a, First(sep, a, 0))
  {
    var j, f := First(sep, a, 0), First(sep, a + b, 0);
    MatchIsLocal(sep, a, b, j);
    MatchIsLocal(sep, a, b, f);
    if f < j {
      EarlierEndsEarlier(sep, a + b, f, j);
    }
  }

  lemma Reassociate(a: string, b: string, c: Cut)
    requires a == c.piece + c.sep + c.rest
    ensures a + b == c.piece + c.sep + (c.rest + b)
  {
  }

  lemma CutIsStable(sep: Separator, a: string, b: string, c: Cut)
    requires CutOff(sep, a) == Some(c)
    ensures CutOff(sep, a + b) == Some(Cut(c.piece, c.sep, c.rest + b))
  {
    CutSays(sep, a, c);
    FirstIsStable(sep, a, b);
    Reassociate(a, b, c);
    CutMeans(sep, a + b, c.piece, c.sep, c.rest + b);
  }

  /** There is only one such division, so a text woven from pieces and separators splits into them. */
  lemma {:induction false} SplitIsUnique(sep: Separator, pieces: seq<string>, ds: seq<string>)
    requires ExactPieces(sep, pieces, ds)
    ensures Split(sep, Weave(pieces, ds)) == pieces && Separators(sep, Weave(pieces, ds)) == ds
    decreases |ds|
  {
    if ds == [] {
      UnbrokenHasNoCut(sep, pieces[0]);
    } else {
      WithoutFirst(sep, pieces, ds);
      SplitIsUnique(sep, pieces[1..], ds[1..]);
      SplitWithFirst(sep, pieces[0], ds[0], Weave(pieces[1..], ds[1..]));
    }
  }

  lemma WithoutFirst(sep: Separator, pieces: seq<string>, ds: seq<string>)
    requires ExactPieces(sep, pieces, ds) && ds != []
    ensures EndsAt(sep, pieces[0], ds[0]) && ExactPieces(sep, pieces[1..], ds[1..])
    ensures pieces == [pieces[0]] + pieces[1..] && ds == [ds[0]] + ds[1..]
  {
    forall k | 0 <= k < |ds| - 1 ensures EndsAt(sep, pieces[1..][k], ds[1..][k]) {
      assert EndsAt(sep, pieces[k + 1], ds[k + 1]);
    }
  }

  lemma SplitWithFirst(sep: Separator, p: string, d: string, rest: string)
    requires EndsAt(sep, p, d)
    ensures Split(sep, p + d + rest) == [p] + Split(sep, rest)
    ensures Separators(sep, p + d + rest) == [d] + Separators(sep, rest)
  {
    assert p + d + "" == p + d;
    CutMeans(sep, p + d, p, d, "");
    CutIsStable(sep, p + d, rest, Cut(p, d, ""));
    assert "" + rest == rest;
  }

  function AllButLast(pieces: seq<string>): seq<string>
    requires |pieces| > 0
  {
    pieces[..|pieces| - 1]
  }

  function Last(pieces: seq<string>): string
    requires |pieces| > 0
  {
    pieces[|pieces| - 1]
  }

  /** Splitting may stop anywhere, keep the last piece, and go on when more text has come. */
  lemma {:induction false} SplitResumes(sep: Separator, a: string, b: string)
    ensures Split(sep, a + b) == AllButLast(Split(sep, a)) + Split(sep, Last(Split(sep, a)) + b)
    decreases |a|
  {
    match CutOff(sep, a) {
      case None =>
        assert AllButLast([a]) == [] && Last([a]) == a;
      case Some(c) =>
        CutIsStable(sep, a, b, c);
        SplitResumes(sep, c.rest, b);
        Regroup(c.piece, Split(sep, c.rest), Split(sep, Last(Split(sep, c.rest)) + b));
    }
  }

  lemma Regroup(piece: string, tail: seq<string>, more: seq<string>)
    requires |tail| > 0
    ensures [piece] + (AllButLast(tail) + more) == AllButLast([piece] + tail) + more
    ensures Last([piece] + tail) == Last(tail)
  {
  }

  // ---------------------------------------------------------------- reading a block

  /** White space and line terminators, as `trim` sees them. */
  predicate IsSpace(c: char) {
    || '\t' <= c <= '\r' || c == ' ' || c == '\U{a0}' || c == '\U{1680}' || '\U{2000}' <= c <= '\U{200a}'
    || c == '\U{2028}' || c == '\U{2029}' || c == '\U{202f}' || c == '\U{205f}' || c == '\U{3000}' || c == '\U{feff}'
  }

  function TrimStart(s: string): string {
    if s != "" && IsSpace(s[0]) then TrimStart(s[1..]) else s
  }

  function TrimEnd(s: string): string {
    if s != "" && IsSpace(s[|s| - 1]) then TrimEnd(s[..|s| - 1]) else s
  }

  function Trim(s: string): string {
    TrimEnd(TrimStart(s))
  }

  /** What follows `name` in the first line that starts with it. */
  function Field(name: string, lines: seq<string>): Option<string> {
    if lines == [] then None
    else if name <= lines[0] then Some(Trim(lines[0][|name|..]))
    else Field(name, lines[1..])
  }

  function DataLines(lines: seq<string>): seq<string> {
    if lines == [] then []
    else if "data:" <= lines[0] then [TrimStart(lines[0][5..])] + DataLines(lines[1..])
    else DataLines(lines[1..])
  }

  function JoinLines(lines: seq<string>): string {
    if lines == [] then "" else if |lines| == 1 then lines[0] else lines[0] + "\n" + JoinLines(lines[1..])
  }

  function Data(lines: seq<string>): string {
    Trim(JoinLines(DataLines(lines)))
  }

  /** The calls of `onMeta` and `onEvent`, in order. */
  datatype Note<V> = Meta(id: Option<string>, event: Option<string>) | Event(value: V)

  /** `failed` once `JSON.parse` has thrown: nothing is consumed after that. */
  datatype Reading<V> = Reading(notes: seq<Note<V>>, latest: Option<V>, failed: bool)

  function Consume<V>(parse: string -> Option<V>, r: Reading<V>, block: string): Reading<V> {
    if r.failed then r
    else
      var lines := Split(Line, block);
      var noted := r.(notes := r.notes + [Meta(Field("id:", lines), Field("event:", lines))]);
      if Data(lines) == "" then noted
      else match parse(Data(lines))
        case None => noted.(failed := true)
        case Some(v) => noted.(latest := Some(v), notes := noted.notes + [Event(v)])
  }

  function ConsumeAll<V>(parse: string -> Option<V>, r: Reading<V>, blocks: seq<string>): Reading<V>
    decreases |blocks|
  {
    if blocks == [] then r else ConsumeAll(parse, Consume(parse, r, blocks[0]), blocks[1..])
  }

  lemma {:induction false} ConsumeAllAppend<V>(parse: string -> Option<V>, r: Reading<V>, a: seq<string>, b: seq<string>)
    ensures ConsumeAll(parse, r, a + b) == ConsumeAll(parse, ConsumeAll(parse, r, a), b)
    decreases |a|
  {
    if a == [] {
      assert a + b == b;
    } else {
      assert (a + b)[0] == a[0] && (a + b)[1..] == a[1..] + b;
      ConsumeAllAppend(parse, Consume(parse, r, a[0]), a[1..], b);
    }
  }

  lemma {:induction false} FailureIsFinal<V>(parse: string -> Option<V>, r: Reading<V>, blocks: seq<string>)
    requires r.failed
    ensures ConsumeAll(parse, r, blocks) == r
    decreases |blocks|
  {
    if blocks != [] { FailureIsFinal(parse, r, blocks[1..]); }
  }

  // ---------------------------------------------------------------- the reader

  /** How the returned promise settles: with the last state, or with one of two errors. */
  datatype Outcome<V> = Latest(value: V) | NoState | Malformed

  /** The blocks of a whole text: the remainder after the last separator is one only if it is not blank. */
  function BlocksOf(text: string): seq<string> {
    var pieces := Split(Block, text);
    if Trim(Last(pieces)) != "" then pieces else AllButLast(pieces)
  }

  function Read<V>(parse: string -> Option<V>, text: string): Reading<V> {
    ConsumeAll(parse, Reading([], None, false), BlocksOf(text))
  }

  function Settle<V>(r: Reading<V>, falsy: V -> bool): Outcome<V> {
    if r.failed then Malformed
    else if r.latest.None? || falsy(r.latest.value) then NoState
    else Latest(r.latest.value)
  }

  function Concat(values: seq<string>): string {
    if values == [] then "" else values[0] + Concat(values[1..])
  }

  lemma {:induction false} ConcatAppend(a: seq<string>, b: seq<string>)
    ensures Concat(a + b) == Concat(a) + Concat(b)
    decreases |a|
  {
    if a == [] {
      assert a + b == b;
    } else {
      assert (a + b)[0] == a[0] && (a + b)[1..] == a[1..] + b;
      ConcatAppend(a[1..], b);
      assert a[0] + (Concat(a[1..]) + Concat(b)) == (a[0] + Concat(a[1..])) + Concat(b);
    }
  }

  /** The text that has been read after `n` turns of the loop; the last turn brings the flush. */
  function Arrived(values: seq<string>, flush: string, n: nat): string {
    if n <= |values| then Concat(values[..n]) else Concat(values) + flush
  }

  lemma NextArrives(values: seq<string>, flush: string, k: nat)
    requires k <= |values|
    ensures Arrived(values, flush, k + 1) == Arrived(values, flush, k) + if k == |values| then flush else values[k]
  {
    if k < |values| {
      var one := [values[k]];
      assert one[1..] == [] && values[k] + "" == values[k];
      assert values[..k + 1] == values[..k] + one;
      ConcatAppend(values[..k], one);
    } else {
      assert values[..k] == values;
    }
  }

  /** What has arrived is a beginning of the whole text. */
  lemma RestToArrive(values: seq<string>, flush: string, n: nat) returns (rest: string)
    requires n <= |values| + 1
    ensures Arrived(values, flush, n) + rest == Concat(values) + flush
  {
    if n <= |values| {
      rest := Concat(values[n..]) + flush;
      ConcatAppend(values[..n], values[n..]);
      assert values[..n] + values[n..] == values;
      assert Concat(values[..n]) + rest == Concat(values[..n]) + Concat(values[n..]) + flush;
    } else {
      rest := "";
    }
  }

  /** Where the loop stands once `text` has arrived: complete blocks consumed, the rest in the buffer. */
  ghost predicate UpTo<V>(parse: string -> Option<V>, text: string, buffer: string, r: Reading<V>) {
    && buffer == Last(Split(Block, text))
    && r == ConsumeAll(parse, Reading([], None, false), AllButLast(Split(Block, text)))
  }

  lemma PieceArrives<V>(parse: string -> Option<V>, text: string, piece: string, buffer: string, r: Reading<V>)
    requires UpTo(parse, text, buffer, r)
    ensures UpTo(parse, text + piece, Last(Split(Block, buffer + piece)),
              ConsumeAll(parse, r, AllButLast(Split(Block, buffer + piece))))
  {
    SplitResumes(Block, text, piece);
    var done, more := AllButLast(Split(Block, text)), Split(Block, buffer + piece);
    LastOfBoth(done, more);
    ConsumeAllAppend(parse, Reading([], None, false), done, AllButLast(more));
  }

  lemma LastOfBoth(a: seq<string>, b: seq<string>)
    requires |b| > 0
    ensures AllButLast(a + b) == a + AllButLast(b) && Last(a + b) == Last(b)
  {
  }

  /** The blocks completed by the first part of a text come first among its blocks. */
  lemma BlocksLeft(text: string, rest: string) returns (left: seq<string>)
    ensures BlocksOf(text + rest) == AllButLast(Split(Block, text)) + left
  {
    SplitResumes(Block, text, rest);
    var more := Split(Block, Last(Split(Block, text)) + rest);
    left := if Trim(Last(more)) != "" then more else AllButLast(more);
  }

  /** A reader that stopped at a malformed block has seen all that matters. */
  lemma FailedBefore<V>(parse: string -> Option<V>, text: string, rest: string, buffer: string, r: Reading<V>)
    requires UpTo(parse, text, buffer, r) && r.failed
    ensures Read(parse, text + rest) == r
  {
    var done := AllButLast(Split(Block, text));
    var left := BlocksLeft(text, rest);
    ConsumeAllAppend(parse, Reading([], None, false), done, left);
    FailureIsFinal(parse, r, left);
  }

  lemma StoppedEarly<V>(parse: string -> Option<V>, values: seq<string>, flush: string, k: nat, buffer: string,
      r: Reading<V>)
    requires k <= |values| && UpTo(parse, Arrived(values, flush, k + 1), buffer, r) && r.failed
    ensures Read(parse, Concat(values) + flush) == r
  {
    var rest := RestToArrive(values, flush, k + 1);
    FailedBefore(parse, Arrived(values, flush, k + 1), rest, buffer, r);
  }

  /** The end of the text: a remainder that is not blank is one more block. */
  lemma ReadToTheEnd<V>(parse: string -> Option<V>, text: string, buffer: string, r: Reading<V>)
    requires UpTo(parse, text, buffer, r)
    ensures Read(parse, text) == if Trim(buffer) != "" then Consume(parse, r, buffer) else r
  {
    var pieces := Split(Block, text);
    assert pieces == AllButLast(pieces) + [buffer];
    ConsumeAllAppend(parse, Reading([], None, false), AllButLast(pieces), [buffer]);
  }

  method ConsumeEach<V>(parse: string -> Option<V>, start: Reading<V>, blocks: seq<string>) returns (r: Reading<V>)
    ensures r == ConsumeAll(parse, start, blocks)
  {
    r := start;
    for i := 0 to |blocks|
      invariant ConsumeAll(parse, r, blocks[i..]) == ConsumeAll(parse, start, blocks)
    {
      assert blocks[i..][1..] == blocks[i + 1..];
      r := Consume(parse, r, blocks[i]);
      if r.failed {
        FailureIsFinal(parse, r, blocks[i + 1..]);
        return;
      }
    }
  }

  /**
    The reading loop. `values` are the decoded pieces in order of arrival, `flush` what the decoder
    adds at the end. What is noted and returned depends only on the text they make up together.
  */
  method StreamApiEvents<V>(values: seq<string>, flush: string, parse: string -> Option<V>, falsy: V -> bool)
    returns (notes: seq<Note<V>>, outcome: Outcome<V>)
    ensures notes == Read(parse, Concat(values) + flush).notes
    ensures outcome == Settle(Read(parse, Concat(values) + flush), falsy)
  {
    var buffer, r, k := "", Reading([], None, false), 0;
    while true
      invariant k <= |values| && !r.failed
      invariant UpTo(parse, Arrived(values, flush, k), buffer, r)
      decreases |values| - k
    {
      var done := k == |values|;
      var piece := if done then flush else values[k];
      NextArrives(values, flush, k);
      PieceArrives(parse, Arrived(values, flush, k), piece, buffer, r);
      var blocks := Split(Block, buffer + piece);
      buffer := Last(blocks);
      r := ConsumeEach(parse, r, AllButLast(blocks));
      if r.failed {
        StoppedEarly(parse, values, flush, k, buffer, r);
        return r.notes, Malformed;
      }
      if done { break; }
      k := k + 1;
    }
    ReadToTheEnd(parse, Arrived(values, flush, k + 1), buffer, r);
    if Trim(buffer) != "" {
      r := Consume(parse, r, buffer);
    }
    return r.notes, Settle(r, falsy);
  }

  // ---------------------------------------------------------------- what a server wrote is what is read

  /** How the three lines of a message and the blank line after them end. */
  datatype Ends = Ends(id: string, event: string, data: string, blank: string)

  /** An event as section 9.2.6 of the standard writes it; `data` is one line of JSON. */
  datatype Message = Message(id: string, event: string, data: string, ends: Ends)

  /** One line of text with no space at either end. */
  ghost predicate Clean(s: string) {
    && (forall c :: c in s ==> c != '\r' && c != '\n')
    && (s != "" ==> !IsSpace(s[0]) && !IsSpace(s[|s| - 1]))
  }

  ghost predicate Writable(m: Message) {
    && Clean(m.id) && Clean(m.event) && Clean(m.data) && m.data != ""
    && IsLineEnd(m.ends.id) && IsLineEnd(m.ends.event) && IsLineEnd(m.ends.data) && IsLineEnd(m.ends.blank)
  }

  ghost predicate IsLineEnd(nl: string) {
    nl == "\n" || nl == "\r\n"
  }

  function LinesOf(m: Message): seq<string> {
    ["id: " + m.id, "event: " + m.event, "data: " + m.data]
  }

  function Body(m: Message): string {
    Weave(LinesOf(m), [m.ends.id, m.ends.event])
  }

  /** What comes between the last line of a message and the next message. */
  function Gap(m: Message): string {
    m.ends.data + m.ends.blank
  }

  function Written(ms: seq<Message>): string {
    if ms == [] then "" else Body(ms[0]) + Gap(ms[0]) + Written(ms[1..])
  }

  function NotesOf<V>(parse: string -> Option<V>, m: Message): seq<Note<V>> {
    match parse(m.data)
    case None => [Meta(Some(m.id), Some(m.event))]
    case Some(v) => [Meta(Some(m.id), Some(m.event)), Event(v)]
  }

  /** What a page should note of these messages: all of them, or those up to the first malformed one. */
  function Noted<V>(parse: string -> Option<V>, ms: seq<Message>): seq<Note<V>> {
    if ms == [] then []
    else if parse(ms[0].data).None? then NotesOf(parse, ms[0])
    else NotesOf(parse, ms[0]) + Noted(parse, ms[1..])
  }

  ghost predicate AllParse<V>(parse: string -> Option<V>, ms: seq<Message>) {
    forall m :: m in ms ==> parse(m.data).Some?
  }

  lemma NoneFirst(sep: Separator, s: string)
    requires forall k :: 0 <= k < |s| ==> Match(sep, s, k) == 0
    ensures Unbroken(sep, s)
  {
  }

  /** A line with no line end in it runs up to the line end that follows it. */
  lemma LineEndsAt(line: string, nl: string)
    requires IsLineEnd(nl) && (forall c :: c in line ==> c != '\r' && c != '\n')
    ensures EndsAt(Line, line, nl) && Unbroken(Line, line)
  {
    var t := line + nl;
    forall k | 0 <= k < |line| ensures Match(Line, t, k) == 0 && Match(Line, line, k) == 0 {
      assert t[k] == line[k] && line[k] in line;
    }
    assert t[|line|..] == nl;
    assert Match(Line, t, |line|) == |nl|;
    FirstIs(Line, t, |line|);
    NoneFirst(Line, line);
  }

  ghost predicate OneLine(line: string) {
    line != "" && forall c :: c in line ==> c != '\r' && c != '\n'
  }

  lemma LinesAreOneLine(m: Message)
    requires Writable(m)
    ensures forall i :: 0 <= i < 3 ==> OneLine(LinesOf(m)[i])
  {
    assert forall i :: 0 <= i < 3 ==> LinesOf(m)[i] == ["id: ", "event: ", "data: "][i] + [m.id, m.event, m.data][i];
  }

  lemma LinesAreRead(m: Message)
    requires Writable(m)
    ensures Split(Line, Body(m)) == LinesOf(m)
  {
    LinesAreOneLine(m);
    var nls := [m.ends.id, m.ends.event];
    forall i | 0 <= i < 2 ensures EndsAt(Line, LinesOf(m)[i], nls[i]) && Unbroken(Line, LinesOf(m)[i]) {
      LineEndsAt(LinesOf(m)[i], nls[i]);
    }
    LineEndsAt(LinesOf(m)[2], m.ends.data);
    SplitIsUnique(Line, LinesOf(m), nls);
  }

  lemma MatchShifts(sep: Separator, a: string, u: string, k: nat)
    ensures Match(sep, a + u, |a| + k) == Match(sep, u, k)
  {
    assert forall i: nat :: LineEnd(a + u, |a| + i) == LineEnd(u, i);
  }

  /** `u` has its first block separator, of length `m`, at `n`. */
  ghost predicate BreaksAt(u: string, n: nat, m: nat) {
    m > 0 && Match(Block, u, n) == m && forall k :: 0 <= k < n ==> Match(Block, u, k) == 0
  }

  /** One more line in front only moves the separator. */
  lemma LineInFront(line: string, nl: string, u: string, n: nat, m: nat)
    requires OneLine(line) && IsLineEnd(nl) && BreaksAt(u, n, m) && u != "" && u[0] != '\r' && u[0] != '\n'
    ensures BreaksAt(line + nl + u, |line + nl| + n, m)
  {
    var a := line + nl;
    MatchShifts(Block, a, u, n);
    forall k | 0 <= k < |a| + n ensures Match(Block, a + u, k) == 0 {
      if k < |a| {
        assert k < |line| ==> (a + u)[k] in line;
        assert (a + u)[|a|] == u[0];
      } else {
        MatchShifts(Block, a, u, k - |a|);
      }
    }
  }

  lemma LastLine(line: string, nl: string, blank: string)
    requires OneLine(line) && IsLineEnd(nl) && IsLineEnd(blank)
    ensures BreaksAt(line + (nl + blank), |line|, |nl + blank|)
  {
    var t := line + (nl + blank);
    forall k | 0 <= k < |line| ensures Match(Block, t, k) == 0 {
      assert t[k] in line;
    }
    MatchShifts(Block, line, nl + blank, 0);
  }

  lemma BodyIs(m: Message)
    ensures var l := LinesOf(m); Body(m) == l[0] + m.ends.id + (l[1] + m.ends.event + l[2])
  {
    var l := LinesOf(m);
    var ds := [m.ends.id, m.ends.event];
    assert ds[1..] == [m.ends.event] && ds[1..][1..] == [];
    assert l[1..] == [l[1], l[2]] && l[1..][1..] == [l[2]];
    assert Weave(l[1..][1..], ds[1..][1..]) == l[2];
    assert Weave(l[1..], ds[1..]) == l[1] + m.ends.event + l[2];
  }

  lemma ThreeLines(a: string, u: string, b: string, v: string, c: string, w: string, blank: string)
    requires OneLine(a) && OneLine(b) && OneLine(c)
    requires IsLineEnd(u) && IsLineEnd(v) && IsLineEnd(w) && IsLineEnd(blank)
    ensures BreaksAt(a + u + (b + v + (c + (w + blank))), |a + u| + (|b + v| + |c|), |w + blank|)
  {
    var e := w + blank;
    LastLine(c, w, blank);
    assert (c + e)[0] == c[0] && c[0] in c;
    LineInFront(b, v, c + e, |c|, |e|);
    var t := b + v + (c + e);
    assert t[0] == b[0] && b[0] in b;
    LineInFront(a, u, t, |b + v| + |c|, |e|);
  }

  lemma BodyThenGap(m: Message)
    ensures var l := LinesOf(m);
            && Body(m) + Gap(m) == l[0] + m.ends.id + (l[1] + m.ends.event + (l[2] + Gap(m)))
            && |Body(m)| == |l[0] + m.ends.id| + (|l[1] + m.ends.event| + |l[2]|)
  {
    BodyIs(m);
  }

  lemma BodyEndsAt(m: Message)
    requires Writable(m)
    ensures EndsAt(Block, Body(m), Gap(m))
  {
    LinesAreOneLine(m);
    var l, e, b := LinesOf(m), Gap(m), Body(m);
    ThreeLines(l[0], m.ends.id, l[1], m.ends.event, l[2], m.ends.data, m.ends.blank);
    BodyThenGap(m);
    FirstIs(Block, b + e, |b|);
  }

  function Bodies(ms: seq<Message>): seq<string> {
    if ms == [] then [] else [Body(ms[0])] + Bodies(ms[1..])
  }

  lemma {:induction false} BlocksAreRead(ms: seq<Message>)
    requires forall m :: m in ms ==> Writable(m)
    ensures Split(Block, Written(ms)) == Bodies(ms) + [""]
    decreases |ms|
  {
    if ms != [] {
      var b, e, rest := Body(ms[0]), Gap(ms[0]), Written(ms[1..]);
      BodyEndsAt(ms[0]);
      SplitWithFirst(Block, b, e, rest);
      BlocksAreRead(ms[1..]);
    }
  }

  lemma FieldsAreRead(m: Message)
    requires Writable(m)
    ensures Field("id:", LinesOf(m)) == Some(m.id)
    ensures Field("event:", LinesOf(m)) == Some(m.event)
    ensures Data(LinesOf(m)) == m.data
  {
    SpaceIsTrimmed(m.id);
    SpaceIsTrimmed(m.event);
    SpaceIsTrimmed(m.data);
    var l := LinesOf(m);
    assert l[0][..3] == "id:" && l[0][3..] == " " + m.id;
    assert l[0][0] == 'i' && l[2][0] == 'd' && l[1][0] == 'e';
    assert l[1][..6] == "event:" && l[1][6..] == " " + m.event;
    assert l[2][..5] == "data:" && l[2][5..] == " " + m.data;
    assert l[1..] == [l[1], l[2]] && l[1..][1..] == [l[2]] && l[1..][1..][1..] == [];
    assert DataLines(l[1..][1..]) == [m.data];
    assert DataLines(l[1..]) == [m.data];
    assert DataLines(l) == [m.data];
  }

  lemma SpaceIsTrimmed(s: string)
    requires Clean(s)
    ensures TrimStart(" " + s) == s && Trim(" " + s) == s && Trim(s) == s
  {
    assert (" " + s)[1..] == s;
  }

  lemma MessageIsRead<V>(parse: string -> Option<V>, m: Message, r: Reading<V>) returns (next: Reading<V>)
    requires !r.failed && Writable(m)
    ensures next == Consume(parse, r, Body(m))
    ensures next.failed == parse(m.data).None?
    ensures parse(m.data).Some? ==> next.latest == parse(m.data)
    ensures next.notes == r.notes + NotesOf(parse, m)
  {
    LinesAreRead(m);
    FieldsAreRead(m);
    next := Consume(parse, r, Body(m));
  }

  lemma {:induction false} WrittenIsRead<V>(parse: string -> Option<V>, ms: seq<Message>, r: Reading<V>)
    requires !r.failed && forall m :: m in ms ==> Writable(m)
    ensures ConsumeAll(parse, r, Bodies(ms)).notes == r.notes + Noted(parse, ms)
    decreases |ms|
  {
    if ms != [] {
      var next := FirstIsRead(parse, ms, r);
      if !next.failed {
        WrittenIsRead(parse, ms[1..], next);
        Regrouped(r.notes, NotesOf(parse, ms[0]), Noted(parse, ms[1..]));
      }
    }
  }

  lemma Regrouped<T>(a: seq<T>, b: seq<T>, c: seq<T>)
    ensures a + b + c == a + (b + c)
  {
  }

  lemma {:induction false} FailsIfMalformed<V>(parse: string -> Option<V>, ms: seq<Message>, r: Reading<V>)
    requires !r.failed && forall m :: m in ms ==> Writable(m)
    ensures ConsumeAll(parse, r, Bodies(ms)).failed <==> !AllParse(parse, ms)
    decreases |ms|
  {
    if ms != [] {
      var next := FirstIsRead(parse, ms, r);
      if !next.failed {
        FailsIfMalformed(parse, ms[1..], next);
        FirstParses(parse, ms);
      }
    }
  }

  lemma {:induction false} LastIsLatest<V>(parse: string -> Option<V>, ms: seq<Message>, r: Reading<V>)
    requires !r.failed && (forall m :: m in ms ==> Writable(m))
    requires ms != [] && AllParse(parse, ms)
    ensures ConsumeAll(parse, r, Bodies(ms)).latest == parse(ms[|ms| - 1].data)
    decreases |ms|
  {
    var next := FirstIsRead(parse, ms, r);
    FirstParses(parse, ms);
    if |ms| > 1 {
      LastIsLatest(parse, ms[1..], next);
    } else {
      assert Bodies(ms[1..]) == [];
    }
  }

  lemma FirstIsRead<V>(parse: string -> Option<V>, ms: seq<Message>, r: Reading<V>) returns (next: Reading<V>)
    requires !r.failed && ms != [] && Writable(ms[0])
    ensures ConsumeAll(parse, r, Bodies(ms)) == ConsumeAll(parse, next, Bodies(ms[1..]))
    ensures next.failed ==> ConsumeAll(parse, r, Bodies(ms)) == next
    ensures next.failed == parse(ms[0].data).None?
    ensures parse(ms[0].data).Some? ==> next.latest == parse(ms[0].data)
    ensures next.notes == r.notes + NotesOf(parse, ms[0])
  {
    next := MessageIsRead(parse, ms[0], r);
    assert Bodies(ms)[1..] == Bodies(ms[1..]);
    if next.failed {
      FailureIsFinal(parse, next, Bodies(ms[1..]));
    }
  }

  lemma FirstParses<V>(parse: string -> Option<V>, ms: seq<Message>)
    requires ms != [] && parse(ms[0].data).Some?
    ensures AllParse(parse, ms) <==> AllParse(parse, ms[1..])
  {
    assert ms == [ms[0]] + ms[1..];
  }

  lemma WrittenBlocks(ms: seq<Message>)
    requires forall m :: m in ms ==> Writable(m)
    ensures BlocksOf(Written(ms)) == Bodies(ms)
  {
    BlocksAreRead(ms);
    assert AllButLast(Bodies(ms) + [""]) == Bodies(ms);
  }

  // ---------------------------------------------------------------- what the parts of a block are

  ghost predicate IsBlockEnd(t: string) {
    t == "\n\n" || t == "\n\r\n" || t == "\r\n\n" || t == "\r\n\r\n"
  }

  /** A line ends at LF or CRLF and nowhere else; a block ends at two line ends. */
  lemma SeparatorsAre(s: string, i: nat, n: nat)
    requires i + n <= |s| && n > 0
    ensures Match(Line, s, i) == n <==> IsLineEnd(s[i..i + n])
    ensures Match(Block, s, i) == n <==> IsBlockEnd(s[i..i + n])
  {
    var t := s[i..i + n];
    assert forall k :: 0 <= k < n ==> t[k] == s[i + k];
    if n == 2 {
      assert t == [t[0], t[1]];
    } else if n == 3 {
      assert t == [t[0], t[1], t[2]];
    } else if n == 4 {
      assert t == [t[0], t[1], t[2], t[3]];
    } else if n == 1 {
      assert t == [t[0]];
    }
  }

  ghost predicate Blank(s: string) {
    forall c :: c in s ==> IsSpace(c)
  }

  /** `trim` takes all white space from both ends, and nothing else. */
  lemma TrimIsTight(s: string) returns (a: string, b: string)
    ensures s == a + Trim(s) + b && Blank(a) && Blank(b)
    ensures Trim(s) != "" ==> !IsSpace(Trim(s)[0]) && !IsSpace(Trim(s)[|Trim(s)| - 1])
  {
    a := TrimStartIsTight(s);
    b := TrimEndIsTight(TrimStart(s));
    assert a + (Trim(s) + b) == a + Trim(s) + b;
  }

  lemma {:induction false} TrimStartIsTight(s: string) returns (a: string)
    ensures s == a + TrimStart(s) && Blank(a)
    ensures TrimStart(s) != "" ==> !IsSpace(TrimStart(s)[0])
  {
    if s != "" && IsSpace(s[0]) {
      a := TrimStartIsTight(s[1..]);
      a := [s[0]] + a;
    } else {
      a := "";
    }
  }

  lemma {:induction false} TrimEndIsTight(s: string) returns (b: string)
    ensures s == TrimEnd(s) + b && Blank(b)
    ensures TrimEnd(s) != "" ==> !IsSpace(TrimEnd(s)[|TrimEnd(s)| - 1]) && TrimEnd(s)[0] == s[0]
  {
    if s != "" && IsSpace(s[|s| - 1]) {
      b := TrimEndIsTight(s[..|s| - 1]);
      b := b + [s[|s| - 1]];
    } else {
      b := "";
    }
  }

  /** A field is what follows its name in the first line that starts with it. */
  lemma {:induction false} FieldIsFirst(name: string, lines: seq<string>)
    ensures Field(name, lines).None? <==> forall k :: 0 <= k < |lines| ==> !(name <= lines[k])
    ensures Field(name, lines).Some? ==>
              exists k | 0 <= k < |lines| :: name <= lines[k] && (forall j | 0 <= j < k :: !(name <= lines[j]))
                                             && Field(name, lines).value == Trim(lines[k][|name|..])
    decreases |lines|
  {
    if lines != [] && !(name <= lines[0]) {
      var rest := lines[1..];
      FieldIsFirst(name, rest);
      if Field(name, rest).Some? {
        var k :| 0 <= k < |rest| && name <= rest[k] && (forall j | 0 <= j < k :: !(name <= rest[j]))
                 && Field(name, rest).value == Trim(rest[k][|name|..]);
        assert lines[k + 1] == rest[k];
        forall j | 0 <= j < k + 1 ensures !(name <= lines[j]) {
          if j > 0 { assert lines[j] == rest[j - 1]; }
        }
      } else {
        forall k | 0 <= k < |lines| ensures !(name <= lines[k]) {
          if k > 0 { assert lines[k] == rest[k - 1]; }
        }
      }
    }
  }

  /** The data of a block: the contents of its data lines in order, joined by LF, whatever lines stand between them. */
  lemma {:induction false} DataIsJoined(lines: seq<string>, data: seq<string>)
    requires DataLines(lines) == data
    ensures forall more: string :: DataLines(lines + ["data:" + more]) == data + [TrimStart(more)]
    ensures forall other: string :: !("data:" <= other) ==> DataLines(lines + [other]) == data
    ensures forall more: string :: JoinLines(data + [more]) == if data == [] then more else JoinLines(data) + "\n" + more
  {
    forall more: string
      ensures DataLines(lines + ["data:" + more]) == data + [TrimStart(more)]
      ensures JoinLines(data + [more]) == if data == [] then more else JoinLines(data) + "\n" + more
    {
      assert ("data:" + more)[5..] == more && ["data:" + more][1..] == [];
      DataLinesAppend(lines, ["data:" + more]);
      JoinOneMore(data, more);
    }
    forall other: string | !("data:" <= other) ensures DataLines(lines + [other]) == data {
      assert [other][1..] == [];
      DataLinesAppend(lines, [other]);
    }
  }

  lemma {:induction false} DataLinesAppend(a: seq<string>, b: seq<string>)
    ensures DataLines(a + b) == DataLines(a) + DataLines(b)
    decreases |a|
  {
    if a == [] {
      assert a + b == b;
    } else {
      assert (a + b)[0] == a[0] && (a + b)[1..] == a[1..] + b;
      DataLinesAppend(a[1..], b);
    }
  }

  lemma {:induction false} JoinOneMore(data: seq<string>, more: string)
    ensures JoinLines(data + [more]) == if data == [] then more else JoinLines(data) + "\n" + more
    decreases |data|
  {
    if |data| > 0 {
      assert (data + [more])[0] == data[0] && (data + [more])[1..] == data[1..] + [more];
      JoinOneMore(data[1..], more);
      if |data| > 1 {
        assert data[0] + "\n" + (JoinLines(data[1..]) + "\n" + more) == data[0] + "\n" + JoinLines(data[1..]) + "\n" + more;
      }
    } else {
      assert data + [more] == [more];
    }
  }

  /** A block of any lines: its fields are always noted first, then its data if there is some and it is JSON. */
  lemma BlockIsConsumed<V>(parse: string -> Option<V>, r: Reading<V>, lines: seq<string>, ends: seq<string>)
    requires !r.failed && ExactPieces(Line, lines, ends)
    ensures var next := Consume(parse, r, Weave(lines, ends));
            var noted := r.notes + [Meta(Field("id:", lines), Field("event:", lines))];
            var data := Trim(JoinLines(DataLines(lines)));
            && (data == "" ==> next == Reading(noted, r.latest, false))
            && (data != "" && parse(data).None? ==> next == Reading(noted, r.latest, true))
            && (data != "" && parse(data).Some? ==> next == Reading(noted + [Event(parse(data).value)], parse(data), false))
  {
    SplitIsUnique(Line, lines, ends);
  }

  /** A text that ends in the middle of a block: `tail` is its remainder. */
  lemma {:induction false} BlocksThenTail(ms: seq<Message>, tail: string)
    requires (forall m :: m in ms ==> Writable(m)) && Unbroken(Block, tail)
    ensures Split(Block, Written(ms) + tail) == Bodies(ms) + [tail]
    decreases |ms|
  {
    if ms == [] {
      assert Written(ms) + tail == tail;
      UnbrokenHasNoCut(Block, tail);
    } else {
      var rest := Written(ms[1..]);
      BodyEndsAt(ms[0]);
      SplitWithFirst(Block, Body(ms[0]), Gap(ms[0]), rest + tail);
      BlocksThenTail(ms[1..], tail);
      InFront(Body(ms[0]), Gap(ms[0]), rest, tail);
      Regrouped([Body(ms[0])], Bodies(ms[1..]), [tail]);
    }
  }

  lemma InFront(a: string, b: string, c: string, d: string)
    ensures a + b + (c + d) == a + b + c + d
  {
  }

  lemma {:induction false} NotBlank(s: string)
    requires s != "" && !IsSpace(s[0])
    ensures TrimStart(s) == s && TrimEnd(s) != ""
  {
    if IsSpace(s[|s| - 1]) { NotBlank(s[..|s| - 1]); }
  }

  lemma BodyIsUnbroken(m: Message)
    requires Writable(m)
    ensures Unbroken(Block, Body(m)) && Trim(Body(m)) != ""
  {
    var b, e := Body(m), Gap(m);
    BodyEndsAt(m);
    forall k | 0 <= k < |b| ensures Match(Block, b, k) == 0 {
      MatchIsLocal(Block, b, e, k);
    }
    NoneFirst(Block, b);
    BodyIs(m);
    assert b[0] == 'i';
    NotBlank(b);
  }

  /** The last message is read although the stream ends before its blank line, and a blank remainder is no message. */
  lemma RemainderIsRead<V>(parse: string -> Option<V>, ms: seq<Message>, m: Message, blank: string)
    requires (forall x :: x in ms ==> Writable(x)) && Writable(m)
    requires Unbroken(Block, blank) && Trim(blank) == ""
    ensures Read(parse, Written(ms) + Body(m)) == Read(parse, Written(ms + [m]))
    ensures Read(parse, Written(ms) + blank) == Read(parse, Written(ms))
  {
    BodyIsUnbroken(m);
    BlocksThenTail(ms, Body(m));
    BlocksThenTail(ms, blank);
    WrittenBlocks(ms);
    WrittenBlocks(ms + [m]);
    BodiesAppend(ms, m);
    assert AllButLast(Bodies(ms) + [blank]) == Bodies(ms);
  }

  lemma {:induction false} BodiesAppend(ms: seq<Message>, m: Message)
    ensures Bodies(ms + [m]) == Bodies(ms) + [Body(m)]
    decreases |ms|
  {
    if ms == [] {
      assert ms + [m] == [m] && [m][1..] == [];
    } else {
      assert (ms + [m])[0] == ms[0] && (ms + [m])[1..] == ms[1..] + [m];
      BodiesAppend(ms[1..], m);
    }
  }

  /**
    The round trip: whatever was written, each line with either line end, is noted message by message
    and in order, up to and including the first whose data is not JSON. By the contract of
    `StreamApiEvents` this holds however the text was cut on its way.
  */
  lemma StreamIsReadBack<V>(parse: string -> Option<V>, ms: seq<Message>)
    requires forall m :: m in ms ==> Writable(m)
    ensures Read(parse, Written(ms)).notes == Noted(parse, ms)
    ensures Read(parse, Written(ms)).failed <==> !AllParse(parse, ms)
    ensures ms != [] && AllParse(parse, ms) ==> Read(parse, Written(ms)).latest == parse(ms[|ms| - 1].data)
    ensures ms == [] ==> Read(parse, Written(ms)).latest == None
  {
    WrittenBlocks(ms);
    WrittenIsRead(parse, ms, Reading([], None, false));
    FailsIfMalformed(parse, ms, Reading([], None, false));
    if ms != [] && AllParse(parse, ms) {
      LastIsLatest(parse, ms, Reading([], None, false));
    }
  }

  function LastState<V>(parse: string -> Option<V>, ms: seq<Message>): Option<V> {
    if ms == [] then None else parse(ms[|ms| - 1].data)
  }

  /**
    How the promise settles on such a text: with an error exactly when some data is not JSON, with no
    state exactly when there was no message or the last one is falsy, else with the last one.
  */
  lemma WrittenSettles<V>(parse: string -> Option<V>, ms: seq<Message>, falsy: V -> bool)
    requires forall m :: m in ms ==> Writable(m)
    ensures var outcome, last := Settle(Read(parse, Written(ms)), falsy), LastState(parse, ms);
            && (outcome.Malformed? <==> !AllParse(parse, ms))
            && (outcome.NoState? <==> AllParse(parse, ms) && (last.None? || falsy(last.value)))
            && (outcome.Latest? ==> last == Some(outcome.value))
  {
    StreamIsReadBack(parse, ms);
  }
}
