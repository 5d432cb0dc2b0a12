/**
  Animation montages: lists of blocks, each a state held for a while. Dates and durations are whole
  hundredths of a second, once they have been clamped; what is read from storage is any number.
  Blocks are found by date, moved, named, and read back from storage.
*/
module Cycles {
  import opened Wrappers

  type StateId = string

  datatype Block = Block(state: StateId, duration: int)

  datatype Cycle = Cycle(id: string, name: string, blocks: seq<Block>)

  // ---------------------------------------------------------------- dates

  function TotalDuration(blocks: seq<Block>): int {
    if blocks == [] then 0 else blocks[0].duration + TotalDuration(blocks[1..])
  }

  /** Where a block starts; past the end, the whole duration. */
  function OffsetOf(blocks: seq<Block>, index: int): int {
    if index <= 0 then 0
    else TotalDuration(blocks[..if index < |blocks| then index else |blocks|])
  }

  method ComputeOffset(blocks: seq<Block>, index: int) returns (acc: int)
    ensures acc == OffsetOf(blocks, index)
  {
    acc := 0;
    var i := 0;
    while i < index && i < |blocks|
      invariant 0 <= i <= |blocks| && (i <= index || i == 0)
      invariant acc == TotalDuration(blocks[..i])
    {
      TotalOfPrefix(blocks, i);
      acc := acc + blocks[i].duration;
      i := i + 1;
    }
  }

  lemma {:induction false} TotalOfPrefix(blocks: seq<Block>, i: nat)
    requires i < |blocks|
    ensures TotalDuration(blocks[..i + 1]) == TotalDuration(blocks[..i]) + blocks[i].duration
    decreases i
  {
    if i == 0 {
      assert blocks[..1][1..] == [];
    } else {
      assert blocks[..i + 1][1..] == blocks[1..][..i] && blocks[..i][1..] == blocks[1..][..i - 1];
      TotalOfPrefix(blocks[1..], i - 1);
    }
  }

  /** Products and remainders go through names, so that proofs about them stay linear. */
  function Times(q: int, m: int): int {
    q * m
  }

  /** The remainder that is never negative. */
  function Mod(a: int, m: int): int
    requires m > 0
  {
    a % m
  }

  lemma ModIs(a: int, m: int) returns (q: int)
    requires m > 0
    ensures a == Times(q, m) + Mod(a, m) && 0 <= Mod(a, m) < m
  {
    q := a / m;
  }

  lemma AtLeastOne(k: int, m: int)
    requires m > 0
    ensures k >= 1 ==> Times(k, m) >= m
    ensures k <= -1 ==> Times(k, m) <= -m
    ensures k == 0 ==> Times(k, m) == 0
    ensures k == 1 ==> Times(k, m) == m
  {
  }

  lemma Distributes(a: int, b: int, m: int)
    ensures Times(a, m) + Times(b, m) == Times(a + b, m)
    ensures Times(a, m) - Times(b, m) == Times(a - b, m)
  {
  }

  lemma ModUnique(t: int, m: int, q: int, r: int)
    requires m > 0 && t == Times(q, m) + r && 0 <= r < m
    ensures Mod(t, m) == r
  {
    var q' := ModIs(t, m);
    Distributes(q, q', m);
    AtLeastOne(q - q', m);
  }

  /** `%` as the source has it: the remainder has the sign of the dividend. */
  function Rem(a: int, b: int): int
    requires b > 0
  {
    if a >= 0 then Mod(a, b) else -Mod(-a, b)
  }

  function Wrapped(t: int, total: int): int
    requires total > 0
  {
    if 0 <= t < total then t else Rem(Rem(t, total) + total, total)
  }

  /** Wrapping a date, before or after the montage too, is the remainder that is never negative. */
  lemma WrappedIsMod(t: int, total: int)
    requires total > 0
    ensures Wrapped(t, total) == Mod(t, total)
  {
    AtLeastOne(0, total);
    AtLeastOne(1, total);
    var q := ModIs(if t >= 0 then t else -t, total);
    var r := Mod(if t >= 0 then t else -t, total);
    Distributes(0, q, total);
    Distributes(-q, 1, total);
    if t >= 0 {
      ModUnique(r + total, total, 1, r);
      if t < total { ModUnique(t, total, 0, t); }
    } else if r == 0 {
      ModUnique(total, total, 1, 0);
      ModUnique(t, total, -q, 0);
    } else {
      ModUnique(total - r, total, 0, total - r);
      ModUnique(t, total, -q - 1, total - r);
    }
  }

  datatype Position = Position(index: int, elapsed: int)

  /** The first block from `i` on that ends after `date`; the search starts with `acc` already past. */
  function Locate(blocks: seq<Block>, date: int, i: nat, acc: int): Position
    requires i <= |blocks|
    decreases |blocks| - i
  {
    if i == |blocks| then Position(|blocks| - 1, 0)
    else if date < acc + blocks[i].duration then Position(i, date - acc)
    else Locate(blocks, date, i + 1, acc + blocks[i].duration)
  }

  function BlockAt(blocks: seq<Block>, t: int): Position {
    var total := TotalDuration(blocks);
    if blocks == [] || total <= 0 then Position(0, 0) else Locate(blocks, Wrapped(t, total), 0, 0)
  }

  method FindBlock(blocks: seq<Block>, t: int) returns (p: Position)
    ensures p == BlockAt(blocks, t)
  {
    var total := TotalDuration(blocks);
    if |blocks| == 0 || total <= 0 { return Position(0, 0); }
    var wrapped := Wrapped(t, total);
    var acc := 0;
    for i := 0 to |blocks|
      invariant Locate(blocks, wrapped, i, acc) == BlockAt(blocks, t)
    {
      var end := acc + blocks[i].duration;
      if wrapped < end { return Position(i, wrapped - acc); }
      acc := end;
    }
    return Position(|blocks| - 1, 0);
  }

  ghost predicate Positive(blocks: seq<Block>) {
    forall i :: 0 <= i < |blocks| ==> blocks[i].duration > 0
  }

  lemma {:induction false} PrefixesGrow(blocks: seq<Block>, i: nat, j: nat)
    requires Positive(blocks) && i <= j <= |blocks|
    ensures 0 <= TotalDuration(blocks[..i]) <= TotalDuration(blocks[..j])
    ensures i < j ==> TotalDuration(blocks[..i]) + blocks[i].duration <= TotalDuration(blocks[..j])
    decreases j
  {
    if j > 0 {
      TotalOfPrefix(blocks, j - 1);
      if i < j {
        PrefixesGrow(blocks, i, j - 1);
      } else {
        PrefixesGrow(blocks, j - 1, j - 1);
      }
    }
  }

  lemma WholeIsLast(blocks: seq<Block>)
    ensures TotalDuration(blocks[..|blocks|]) == TotalDuration(blocks)
  {
    assert blocks[..|blocks|] == blocks;
  }

  lemma {:induction false} LocateFinds(blocks: seq<Block>, from: nat, i: nat, e: int)
    requires Positive(blocks) && from <= i < |blocks| && 0 <= e < blocks[i].duration
    ensures Locate(blocks, TotalDuration(blocks[..i]) + e, from, TotalDuration(blocks[..from])) == Position(i, e)
    decreases i - from
  {
    TotalOfPrefix(blocks, from);
    if from < i {
      PrefixesGrow(blocks, from + 1, i);
      LocateFinds(blocks, from + 1, i, e);
    }
  }

  lemma {:induction false} LocateIsRight(blocks: seq<Block>, date: int, from: nat)
    requires Positive(blocks) && from <= |blocks|
    requires TotalDuration(blocks[..from]) <= date < TotalDuration(blocks)
    ensures var p := Locate(blocks, date, from, TotalDuration(blocks[..from]));
            && 0 <= p.index < |blocks| && 0 <= p.elapsed < blocks[p.index].duration
            && date == TotalDuration(blocks[..p.index]) + p.elapsed
    decreases |blocks| - from
  {
    WholeIsLast(blocks);
    if from < |blocks| {
      TotalOfPrefix(blocks, from);
      if date >= TotalDuration(blocks[..from + 1]) { LocateIsRight(blocks, date, from + 1); }
    }
  }

  /**
    At any date, before the montage or after it, some block is playing, and the date is where it says, some
    turns away.
  */
  lemma BlockAtIsRight(blocks: seq<Block>, t: int) returns (turns: int)
    requires Positive(blocks) && blocks != []
    ensures var p := BlockAt(blocks, t);
            && 0 <= p.index < |blocks| && 0 <= p.elapsed < blocks[p.index].duration
            && t == OffsetOf(blocks, p.index) + p.elapsed + Times(turns, TotalDuration(blocks))
  {
    WholeIsLast(blocks);
    PrefixesGrow(blocks, 0, |blocks|);
    var total := TotalDuration(blocks);
    WrappedIsMod(t, total);
    turns := ModIs(t, total);
    LocateIsRight(blocks, Mod(t, total), 0);
  }

  /** The inverse: `e` after the start of block `i`, in whichever turn, that block is playing, for `e` so far. */
  lemma BlockAtInvertsOffset(blocks: seq<Block>, i: nat, e: int, turns: int)
    requires Positive(blocks) && i < |blocks| && 0 <= e < blocks[i].duration
    ensures BlockAt(blocks, OffsetOf(blocks, i) + e + Times(turns, TotalDuration(blocks))) == Position(i, e)
  {
    WholeIsLast(blocks);
    PrefixesGrow(blocks, 0, i);
    PrefixesGrow(blocks, i, |blocks|);
    var total, date := TotalDuration(blocks), TotalDuration(blocks[..i]) + e;
    assert OffsetOf(blocks, i) == TotalDuration(blocks[..i]);
    WrappedIsMod(date + Times(turns, total), total);
    ModUnique(date + Times(turns, total), total, turns, date);
    LocateFinds(blocks, 0, i, e);
  }

  /** Playback loops: a whole montage later, or earlier, the same picture is shown. */
  lemma BlockAtIsPeriodic(blocks: seq<Block>, t: int, turns: int)
    requires Positive(blocks) && blocks != []
    ensures BlockAt(blocks, t + Times(turns, TotalDuration(blocks))) == BlockAt(blocks, t)
  {
    var k := BlockAtIsRight(blocks, t);
    var p := BlockAt(blocks, t);
    Distributes(k, turns, TotalDuration(blocks));
    BlockAtInvertsOffset(blocks, p.index, p.elapsed, k + turns);
  }

  // ---------------------------------------------------------------- moving a block

  function Min(a: int, b: int): int {
    if a < b then a else b
  }

  function Max(a: int, b: int): int {
    if a > b then a else b
  }

  /** Where `splice` starts: a negative position counts from the end. */
  function SpliceStart(length: nat, from: int): (start: nat)
    ensures start <= length
  {
    if from < 0 then Max(length + from, 0) else Min(from, length)
  }

  function Without<T>(s: seq<T>, i: nat): seq<T>
    requires i < |s|
  {
    s[..i] + s[i + 1..]
  }

  function With<T>(s: seq<T>, i: nat, x: T): seq<T>
    requires i <= |s|
  {
    s[..i] + [x] + s[i..]
  }

  function MoveBlock(blocks: seq<Block>, from: int, to: int): seq<Block> {
    var start := SpliceStart(|blocks|, from);
    if start == |blocks| then blocks
    else
      var rest := Without(blocks, start);
      With(rest, Min(Max(to, 0), |rest|), blocks[start])
  }

  lemma {:induction false} TotalOfAppend(a: seq<Block>, b: seq<Block>)
    ensures TotalDuration(a + b) == TotalDuration(a) + TotalDuration(b)
    decreases |a|
  {
    if a == [] {
      assert a + b == b;
    } else {
      assert (a + b)[1..] == a[1..] + b;
      TotalOfAppend(a[1..], b);
    }
  }

  lemma TotalOfWith(s: seq<Block>, i: nat, x: Block)
    requires i <= |s|
    ensures TotalDuration(With(s, i, x)) == TotalDuration(s) + x.duration
    ensures multiset(With(s, i, x)) == multiset(s) + multiset{x}
  {
    assert s == s[..i] + s[i..];
    assert [x][1..] == [];
    TotalOfAppend(s[..i], s[i..]);
    TotalOfAppend(s[..i], [x]);
    TotalOfAppend(s[..i] + [x], s[i..]);
  }

  lemma WithoutThenWith(s: seq<Block>, i: nat)
    requires i < |s|
    ensures With(Without(s, i), i, s[i]) == s
  {
  }

  lemma WithThenWithout(s: seq<Block>, i: nat, x: Block)
    requires i <= |s|
    ensures |With(s, i, x)| == |s| + 1 && With(s, i, x)[i] == x && Without(With(s, i, x), i) == s
  {
  }

  /** The two splices of `moveBlock`, on a copy. */
  method SpliceBlock(blocks: seq<Block>, from: int, to: int) returns (next: seq<Block>)
    ensures next == MoveBlock(blocks, from, to)
  {
    next := blocks;
    var start := SpliceStart(|next|, from);
    if start == |next| { return; }
    var moved := next[start];
    next := Without(next, start);
    next := With(next, Min(Max(to, 0), |next|), moved);
  }

  /** A move keeps the blocks and the whole duration. */
  lemma MoveIsAPermutation(blocks: seq<Block>, from: int, to: int)
    ensures multiset(MoveBlock(blocks, from, to)) == multiset(blocks)
    ensures TotalDuration(MoveBlock(blocks, from, to)) == TotalDuration(blocks)
  {
    var start := SpliceStart(|blocks|, from);
    if start < |blocks| {
      var rest := Without(blocks, start);
      WithoutThenWith(blocks, start);
      TotalOfWith(rest, start, blocks[start]);
      TotalOfWith(rest, Min(Max(to, 0), |rest|), blocks[start]);
    }
  }

  /**
    It puts the block where it was asked, within the list, and leaves the others in their order;
    moving it back undoes it. A position outside the list moves nothing.
  */
  lemma MoveLands(blocks: seq<Block>, from: int, to: int)
    ensures var start, moved := SpliceStart(|blocks|, from), MoveBlock(blocks, from, to);
            if start == |blocks| then moved == blocks
            else
              var at := Min(Max(to, 0), |blocks| - 1);
              && |moved| == |blocks| && moved[at] == blocks[start]
              && Without(moved, at) == Without(blocks, start)
              && MoveBlock(moved, at, start) == blocks
  {
    var start := SpliceStart(|blocks|, from);
    if start < |blocks| {
      var rest := Without(blocks, start);
      WithoutThenWith(blocks, start);
      WithThenWithout(rest, Min(Max(to, 0), |rest|), blocks[start]);
    }
  }

  // ---------------------------------------------------------------- names

  function Digit(n: nat): char
    requires n < 10
  {
    "0123456789"[n]
  }

  function Decimal(n: nat): string {
    if n < 10 then [Digit(n)] else Decimal(n / 10) + [Digit(n % 10)]
  }

  lemma {:induction false} DecimalIsInjective(m: nat, n: nat)
    requires Decimal(m) == Decimal(n)
    ensures m == n
    decreases m
  {
    var d, e := Decimal(m), Decimal(n);
    assert d[|d| - 1] == Digit(m % 10) && e[|e| - 1] == Digit(n % 10);
    assert m % 10 == n % 10;
    if m >= 10 && n >= 10 {
      assert d[..|d| - 1] == Decimal(m / 10) && e[..|e| - 1] == Decimal(n / 10);
      DecimalIsInjective(m / 10, n / 10);
    } else {
      DecimalIsNotEmpty(m / 10);
      DecimalIsNotEmpty(n / 10);
    }
  }

  lemma DecimalIsNotEmpty(n: nat)
    ensures |Decimal(n)| > 0 && (n >= 10 ==> |Decimal(n)| > 1)
  {
  }

  /** The names with a number from `from` to `n - 1`. */
  function Numbered(prefix: string, from: nat, n: nat): set<string> {
    if n <= from then {} else Numbered(prefix, from, n - 1) + {prefix + Decimal(n - 1)}
  }

  lemma SameNumber(prefix: string, j: nat, k: nat)
    requires prefix + Decimal(j) == prefix + Decimal(k)
    ensures j == k
  {
    assert (prefix + Decimal(j))[|prefix|..] == Decimal(j) && (prefix + Decimal(k))[|prefix|..] == Decimal(k);
    DecimalIsInjective(j, k);
  }

  lemma {:induction false} NumberedHas(prefix: string, from: nat, n: nat, k: nat)
    ensures prefix + Decimal(k) in Numbered(prefix, from, n) <==> from <= k < n
  {
    if n > from {
      NumberedHas(prefix, from, n - 1, k);
      if prefix + Decimal(k) == prefix + Decimal(n - 1) { SameNumber(prefix, k, n - 1); }
    }
  }

  lemma {:induction false} NumberedAreLonger(prefix: string, from: nat, n: nat)
    ensures forall s :: s in Numbered(prefix, from, n) ==> |s| > |prefix|
  {
    if n > from {
      NumberedAreLonger(prefix, from, n - 1);
      DecimalIsNotEmpty(n - 1);
    }
  }

  lemma {:induction false} NumberedAreMany(prefix: string, from: nat, n: nat)
    requires from <= n
    ensures |Numbered(prefix, from, n)| == n - from
  {
    if n > from {
      NumberedAreMany(prefix, from, n - 1);
      NumberedHas(prefix, from, n - 1, n - 1);
    }
  }

  lemma SubsetIsNotLarger<T>(a: set<T>, b: set<T>)
    requires a <= b
    ensures |a| <= |b|
  {
    assert b == a + (b - a);
  }

  function NamesOf(cycles: seq<Cycle>): set<string> {
    set c | c in cycles :: c.name
  }

  function IdsOf(cycles: seq<Cycle>): set<string> {
    set c | c in cycles :: c.id
  }

  lemma {:induction false} FewNames(cycles: seq<Cycle>)
    ensures |NamesOf(cycles)| <= |cycles| && |IdsOf(cycles)| <= |cycles|
    decreases |cycles|
  {
    if cycles == [] {
      assert NamesOf(cycles) == {} && IdsOf(cycles) == {};
    } else {
      var rest, c := cycles[1..], cycles[0];
      FewNames(rest);
      assert cycles == [c] + rest;
      assert NamesOf(cycles) <= NamesOf(rest) + {c.name} && IdsOf(cycles) <= IdsOf(rest) + {c.id};
      SubsetIsNotLarger(NamesOf(cycles), NamesOf(rest) + {c.name});
      SubsetIsNotLarger(IdsOf(cycles), IdsOf(rest) + {c.id});
    }
  }

  /** All numbers below `n` are taken: there are no more of them than names. */
  lemma Pigeonhole(prefix: string, from: nat, n: nat, taken: set<string>)
    requires from <= n && Numbered(prefix, from, n) <= taken
    ensures n - from <= |taken|
  {
    NumberedAreMany(prefix, from, n);
    SubsetIsNotLarger(Numbered(prefix, from, n), taken);
  }

  /** The first free number, at the latest after as many tries as there are cycles. */
  method FirstFree(prefix: string, from: nat, taken: set<string>) returns (n: nat)
    ensures from <= n <= from + |taken|
    ensures prefix + Decimal(n) !in taken && Numbered(prefix, from, n) <= taken
  {
    n := from;
    while prefix + Decimal(n) in taken
      invariant from <= n <= from + |taken| && Numbered(prefix, from, n) <= taken
      decreases from + |taken| - n
    {
      Pigeonhole(prefix, from, n + 1, taken);
      n := n + 1;
    }
  }

  method UniqueName(base: string, cycles: seq<Cycle>) returns (name: string)
    ensures name !in NamesOf(cycles)
    ensures base !in NamesOf(cycles) ==> name == base
    ensures base in NamesOf(cycles) ==>
              exists n: nat :: 2 <= n <= |cycles| + 1 && name == base + " " + Decimal(n)
                && Numbered(base + " ", 2, n) <= NamesOf(cycles)
  {
    var taken := NamesOf(cycles);
    if base !in taken { return base; }
    // the bare name takes one of the places
    ghost var others := taken - {base};
    var n := FirstFree(base + " ", 2, taken);
    assert n <= |cycles| + 1 by {
      FewNames(cycles);
      assert |others| == |taken| - 1;
      assert Numbered(base + " ", 2, n) <= others by { NumberedAreLonger(base + " ", 2, n); }
      Pigeonhole(base + " ", 2, n, others);
    }
    name := base + " " + Decimal(n);
  }

  method NextCycleId(cycles: seq<Cycle>) returns (id: string)
    ensures id !in IdsOf(cycles)
    ensures exists n: nat :: 1 <= n <= |cycles| + 1 && id == "c" + Decimal(n) && Numbered("c", 1, n) <= IdsOf(cycles)
  {
    FewNames(cycles);
    var n := FirstFree("c", 1, IdsOf(cycles));
    id := "c" + Decimal(n);
  }

  // ---------------------------------------------------------------- durations

  const MIN_BLOCK: int := 60
  const MAX_BLOCK: int := 1000
  const STEP: int := 10
  const MAX_BLOCS: nat := 200
  const MAX_CYCLES: nat := 50

  /** The states that montages may use, and the durations below which some of them are cut short. */
  datatype Catalogue = Catalogue(sequence: seq<StateId>, minDuration: map<StateId, int>)

  function MinDurationOf(cat: Catalogue, state: StateId): int {
    Max(MIN_BLOCK, if state in cat.minDuration then cat.minDuration[state] else MIN_BLOCK)
  }

  /** How many steps there are in a duration given in hundredths, to the nearest, halves upwards. */
  function Steps(hundredths: real): int {
    ((hundredths + 5.0) / 10.0).Floor
  }

  function Snapped(hundredths: real): int {
    STEP * Steps(hundredths)
  }

  function ClampDuration(cat: Catalogue, state: StateId, hundredths: real): (d: int)
    ensures d <= MAX_BLOCK && (d >= MinDurationOf(cat, state) || d == MAX_BLOCK)
  {
    Min(MAX_BLOCK, Max(MinDurationOf(cat, state), Snapped(hundredths)))
  }

  lemma StepsOfWhole(h: int)
    ensures Steps(h as real) == (h + STEP / 2) / STEP
  {
    var q := (h + 5) / 10;
    assert q as real <= (h as real + 5.0) / 10.0 < (q + 1) as real;
  }

  /** A floor that rounds down to a step, or is out of reach, is a duration like any other. */
  predicate SteadyFloor(cat: Catalogue, state: StateId) {
    MinDurationOf(cat, state) % STEP < STEP / 2 || MinDurationOf(cat, state) >= MAX_BLOCK
  }

  /** Clamping again changes nothing, for all durations, exactly when the state's floor is steady. */
  lemma ClampIsIdempotentIff(cat: Catalogue, state: StateId)
    ensures SteadyFloor(cat, state) <==>
            forall h: real :: ClampDuration(cat, state, ClampDuration(cat, state, h) as real) == ClampDuration(cat, state, h)
  {
    var floor := MinDurationOf(cat, state);
    if SteadyFloor(cat, state) {
      forall h: real ensures ClampDuration(cat, state, ClampDuration(cat, state, h) as real) == ClampDuration(cat, state, h) {
        StepsOfWhole(ClampDuration(cat, state, h));
      }
    } else {
      StepsOfWhole(0);
      StepsOfWhole(floor);
      assert ClampDuration(cat, state, 0 as real) == floor;
      assert ClampDuration(cat, state, floor as real) > floor;
    }
  }

  ghost predicate SteadyFloors(cat: Catalogue) {
    forall s :: s in cat.sequence ==> SteadyFloor(cat, s)
  }

  const MEASURED: map<StateId, int> := map["alert" := 200, "orbit" := 250, "swirl" := 130, "burst" := 240, "comet" := 240]

  /** With the floors measured for the shipped states, whatever palette is made of them, all are steady. */
  lemma ShippedFloorsAreSteady(sequence: seq<StateId>)
    ensures SteadyFloors(Catalogue(sequence, MEASURED))
  {
    forall s | s in MEASURED ensures MEASURED[s] % 10 == 0 {
      assert s == "alert" || s == "orbit" || s == "swirl" || s == "burst" || s == "comet";
    }
  }

  // ---------------------------------------------------------------- storage

  /** What `JSON.parse` may give; a number is written in hundredths, whole or not. */
  datatype Json = Num(hundredths: real) | Str(s: string) | Arr(items: seq<Json>) | Obj(fields: map<string, Json>) | Other

  function Field(raw: Json, name: string): Json {
    if raw.Obj? && name in raw.fields then raw.fields[name] else Other
  }

  function ParseBlock(cat: Catalogue, raw: Json): Option<Block> {
    var state, duration := Field(raw, "state"), Field(raw, "duration");
    if !state.Str? || state.s !in cat.sequence || !duration.Num? then None
    else Some(Block(state.s, ClampDuration(cat, state.s, duration.hundredths)))
  }

  function ParseBlocks(cat: Catalogue, raws: seq<Json>): seq<Block> {
    if raws == [] then []
    else (match ParseBlock(cat, raws[0]) case None => [] case Some(b) => [b]) + ParseBlocks(cat, raws[1..])
  }

  function Take<T>(s: seq<T>, n: nat): seq<T> {
    if |s| <= n then s else s[..n]
  }

  function ParseCycle(cat: Catalogue, raw: Json, seen: seq<Cycle>): Option<Cycle> {
    var id, name, blocks := Field(raw, "id"), Field(raw, "name"), Field(raw, "blocks");
    if !id.Str? || id.s == "" || !name.Str? || !blocks.Arr? then None
    else
      var kept := ParseBlocks(cat, Take(blocks.items, MAX_BLOCS));
      if kept == [] || id.s in IdsOf(seen) then None else Some(Cycle(id.s, name.s, kept))
  }

  function ParseFrom(cat: Catalogue, raws: seq<Json>, out: seq<Cycle>): seq<Cycle>
    decreases |raws|
  {
    if raws == [] then out
    else
      var c := ParseCycle(cat, raws[0], out);
      ParseFrom(cat, raws[1..], if c.Some? then out + [c.value] else out)
  }

  /** `None` stands for nothing stored and for text that is not JSON. */
  function ParseCycles(cat: Catalogue, stored: Option<Json>): seq<Cycle> {
    if stored.None? || !stored.value.Arr? then [] else ParseFrom(cat, Take(stored.value.items, MAX_CYCLES), [])
  }

  method ReadCycles(cat: Catalogue, stored: Option<Json>) returns (out: seq<Cycle>)
    ensures out == ParseCycles(cat, stored)
  {
    out := [];
    if stored.None? || !stored.value.Arr? { return; }
    var items := Take(stored.value.items, MAX_CYCLES);
    for i := 0 to |items|
      invariant ParseFrom(cat, items[i..], out) == ParseCycles(cat, stored)
    {
      assert items[i..][1..] == items[i + 1..];
      var c := ParseCycle(cat, items[i], out);
      if c.Some? { out := out + [c.value]; }
    }
  }

  ghost predicate FitBlock(cat: Catalogue, b: Block) {
    b.state in cat.sequence && b.duration == ClampDuration(cat, b.state, b.duration as real)
  }

  ghost predicate FitCycle(cat: Catalogue, c: Cycle) {
    c.id != "" && 1 <= |c.blocks| <= MAX_BLOCS && forall b :: b in c.blocks ==> FitBlock(cat, b)
  }

  ghost predicate DistinctIds(cycles: seq<Cycle>) {
    forall i, j :: 0 <= i < j < |cycles| ==> cycles[i].id != cycles[j].id
  }

  /** What the editor may hold. */
  ghost predicate Fit(cat: Catalogue, cycles: seq<Cycle>) {
    && |cycles| <= MAX_CYCLES && DistinctIds(cycles)
    && forall c :: c in cycles ==> FitCycle(cat, c)
  }

  lemma {:induction false} ParsedBlocksFit(cat: Catalogue, raws: seq<Json>)
    requires SteadyFloors(cat)
    ensures |ParseBlocks(cat, raws)| <= |raws|
    ensures forall b :: b in ParseBlocks(cat, raws) ==> FitBlock(cat, b)
    decreases |raws|
  {
    if raws != [] {
      ParsedBlocksFit(cat, raws[1..]);
      var first := ParseBlock(cat, raws[0]);
      if first.Some? { ClampIsIdempotentIff(cat, first.value.state); }
    }
  }

  lemma ParsedCycleFits(cat: Catalogue, raw: Json, seen: seq<Cycle>)
    requires SteadyFloors(cat)
    ensures ParseCycle(cat, raw, seen).Some? ==>
              FitCycle(cat, ParseCycle(cat, raw, seen).value) && ParseCycle(cat, raw, seen).value.id !in IdsOf(seen)
  {
    var blocks := Field(raw, "blocks");
    if blocks.Arr? { ParsedBlocksFit(cat, Take(blocks.items, MAX_BLOCS)); }
  }

  lemma {:induction false} ParsedFromFit(cat: Catalogue, raws: seq<Json>, out: seq<Cycle>)
    requires SteadyFloors(cat) && DistinctIds(out) && (forall c :: c in out ==> FitCycle(cat, c))
    requires |raws| + |out| <= MAX_CYCLES
    ensures Fit(cat, ParseFrom(cat, raws, out))
    decreases |raws|
  {
    if raws != [] {
      var c := ParseCycle(cat, raws[0], out);
      ParsedCycleFits(cat, raws[0], out);
      if c.Some? {
        forall i | 0 <= i < |out| ensures out[i].id != c.value.id {
          assert out[i] in out;
        }
        ParsedFromFit(cat, raws[1..], out + [c.value]);
      } else {
        ParsedFromFit(cat, raws[1..], out);
      }
    }
  }

  /** Whatever is in storage, only what the editor may hold comes out of it. */
  lemma WhateverIsStoredFits(cat: Catalogue, stored: Option<Json>)
    requires SteadyFloors(cat)
    ensures Fit(cat, ParseCycles(cat, stored))
  {
    if stored.Some? && stored.value.Arr? {
      ParsedFromFit(cat, Take(stored.value.items, MAX_CYCLES), []);
    }
  }

  function WriteBlocks(blocks: seq<Block>): seq<Json> {
    seq(|blocks|, i requires 0 <= i < |blocks| =>
      Obj(map["state" := Str(blocks[i].state), "duration" := Num(blocks[i].duration as real)]))
  }

  function WriteCycle(c: Cycle): Json {
    Obj(map["id" := Str(c.id), "name" := Str(c.name), "blocks" := Arr(WriteBlocks(c.blocks))])
  }

  function WriteCycles(cycles: seq<Cycle>): Json {
    Arr(seq(|cycles|, i requires 0 <= i < |cycles| => WriteCycle(cycles[i])))
  }

  lemma {:induction false} BlocksAreReadBack(cat: Catalogue, blocks: seq<Block>)
    requires forall b :: b in blocks ==> FitBlock(cat, b)
    ensures ParseBlocks(cat, WriteBlocks(blocks)) == blocks
    decreases |blocks|
  {
    if blocks != [] {
      assert WriteBlocks(blocks)[1..] == WriteBlocks(blocks[1..]);
      assert FitBlock(cat, blocks[0]);
      BlocksAreReadBack(cat, blocks[1..]);
      assert blocks == [blocks[0]] + blocks[1..];
    }
  }

  lemma {:induction false} CyclesAreReadBack(cat: Catalogue, cycles: seq<Cycle>, out: seq<Cycle>)
    requires DistinctIds(out + cycles) && forall c :: c in cycles ==> FitCycle(cat, c)
    ensures ParseFrom(cat, WriteCycles(cycles).items, out) == out + cycles
    decreases |cycles|
  {
    if cycles != [] {
      var c, rest := cycles[0], cycles[1..];
      assert WriteCycles(cycles).items[1..] == WriteCycles(rest).items;
      assert FitCycle(cat, c);
      BlocksAreReadBack(cat, c.blocks);
      assert c.id !in IdsOf(out) by {
        forall o | o in out ensures o.id != c.id {
          var i :| 0 <= i < |out| && out[i] == o;
          assert (out + cycles)[i] == o && (out + cycles)[|out|] == c;
        }
      }
      assert ParseCycle(cat, WriteCycle(c), out) == Some(c);
      assert out + cycles == (out + [c]) + rest;
      CyclesAreReadBack(cat, rest, out + [c]);
    }
  }

  /** The round trip: what the editor holds is what a reload gives back. */
  lemma StoredCyclesAreReadBack(cat: Catalogue, cycles: seq<Cycle>)
    requires Fit(cat, cycles)
    ensures ParseCycles(cat, Some(WriteCycles(cycles))) == cycles
  {
    assert [] + cycles == cycles;
    CyclesAreReadBack(cat, cycles, []);
  }

  /** So reading, storing what was read and reading again changes nothing, even from a storage made by hand. */
  lemma ReadingIsStable(cat: Catalogue, stored: Option<Json>)
    requires SteadyFloors(cat)
    ensures ParseCycles(cat, Some(WriteCycles(ParseCycles(cat, stored)))) == ParseCycles(cat, stored)
  {
    WhateverIsStoredFits(cat, stored);
    StoredCyclesAreReadBack(cat, ParseCycles(cat, stored));
  }
}
