/** The board: twelve distinct cards at the twelve key positions, the
    enumeration of its Sets, the rejection-sampling deal, and the judging
    of guesses against the lists of Sets found and not yet found. */
module Boards {
  import opened Cards
  import opened Rules
  import opened Keys
  import opened Lists
  import opened Judging

  datatype Option<T> = None | Some(value: T)

  /** (a, b, c) comes before (i, j, k) in the order the triple loop visits triples. */
  predicate Before(a: int, b: int, c: int, i: int, j: int, k: int) {
    a < i || (a == i && (b < j || (b == j && c < k)))
  }

  /** `r` holds, as canonical keys and without repetitions, the keys of
      exactly those ascending position triples before (i, j, k) whose cards
      form a Set. */
  ghost predicate EnumeratedUpTo(level: Level, cards: seq<Card>, r: seq<string>, i: int, j: int, k: int)
    requires |cards| == NUM_CARDS
  {
    Distinct(r) && (forall n :: 0 <= n < |r| ==> IsCanonical(r[n])) &&
    forall a, b, c :: 0 <= a < b < c < NUM_CARDS ==>
      (Key(a, b, c) in r <==> Before(a, b, c, i, j, k) && IsASet(level, cards[a], cards[b], cards[c]))
  }

  /** `r` holds, as canonical keys and without repetitions, the key of
      every ascending position triple whose cards form a Set, and nothing else. */
  ghost predicate EnumeratesSets(level: Level, cards: seq<Card>, r: seq<string>)
    requires |cards| == NUM_CARDS
  {
    Distinct(r) && (forall n :: 0 <= n < |r| ==> IsCanonical(r[n])) &&
    forall a, b, c :: 0 <= a < b < c < NUM_CARDS ==>
      (Key(a, b, c) in r <==> IsASet(level, cards[a], cards[b], cards[c]))
  }

  /** The keys in `r` come in the order the triple loop visits their
      position triples. */
  ghost predicate InLoopOrder(r: seq<string>) {
    forall m, n :: 0 <= m < n < |r| ==> KeyBefore(r[m], r[n])
  }

  /** The position triple of key `s` comes before that of key `t`. */
  ghost predicate KeyBefore(s: string, t: string) {
    forall a, b, c, x, y, z ::
      (0 <= a < b < c < NUM_CARDS && 0 <= x < y < z < NUM_CARDS && s == Key(a, b, c) && t == Key(x, y, z)) ==>
      Before(a, b, c, x, y, z)
  }

  /** Some three cards of the board form a Set. */
  ghost predicate HasASet(level: Level, cards: seq<Card>)
    requires |cards| == NUM_CARDS
  {
    exists a, b, c :: 0 <= a < b < c < NUM_CARDS && IsASet(level, cards[a], cards[b], cards[c])
  }

  /** All Sets on the board: one key per position triple i < j < k whose
      cards form a Set, visited in the order of the triple loop. */
  method FindSets(level: Level, cards: seq<Card>) returns (result: seq<string>)
    requires |cards| == NUM_CARDS
    ensures EnumeratesSets(level, cards, result)
    ensures InLoopOrder(result)
  {
    result := [];
    var i := 0;
    while i < NUM_CARDS - 2
      invariant 0 <= i <= NUM_CARDS - 2
      invariant EnumeratedUpTo(level, cards, result, i, 0, 0)
      invariant InLoopOrder(result)
    {
      var j := i + 1;
      EnumeratedSkip(level, cards, result, i, 0, 0, i, j, 0);
      while j < NUM_CARDS - 1
        invariant i + 1 <= j <= NUM_CARDS - 1
        invariant EnumeratedUpTo(level, cards, result, i, j, 0)
        invariant InLoopOrder(result)
      {
        var k := j + 1;
        EnumeratedSkip(level, cards, result, i, j, 0, i, j, k);
        while k < NUM_CARDS
          invariant j + 1 <= k <= NUM_CARDS
          invariant EnumeratedUpTo(level, cards, result, i, j, k)
          invariant InLoopOrder(result)
        {
          EnumeratedNext(level, cards, result, i, j, k);
          if IsASet(level, cards[i], cards[j], cards[k]) {
            OrderedAppend(level, cards, result, i, j, k);
            result := result + [Key(i, j, k)];
          }
          k := k + 1;
        }
        EnumeratedSkip(level, cards, result, i, j, k, i, j + 1, 0);
        j := j + 1;
      }
      EnumeratedSkip(level, cards, result, i, j, 0, i + 1, 0, 0);
      i := i + 1;
    }
    EnumeratedSkip(level, cards, result, i, 0, 0, NUM_CARDS, 0, 0);
  }

  /** Moving past positions that start no ascending triple adds nothing to find. */
  lemma EnumeratedSkip(level: Level, cards: seq<Card>, r: seq<string>,
                       i: int, j: int, k: int, i': int, j': int, k': int)
    requires |cards| == NUM_CARDS && EnumeratedUpTo(level, cards, r, i, j, k)
    requires forall a, b, c :: 0 <= a < b < c < NUM_CARDS ==> (Before(a, b, c, i, j, k) <==> Before(a, b, c, i', j', k'))
    ensures EnumeratedUpTo(level, cards, r, i', j', k')
  {
  }

  /** Visiting the triple (i, j, k) appends its key exactly when it is a Set. */
  lemma EnumeratedNext(level: Level, cards: seq<Card>, r: seq<string>, i: int, j: int, k: int)
    requires |cards| == NUM_CARDS && EnumeratedUpTo(level, cards, r, i, j, k)
    requires 0 <= i < j < k < NUM_CARDS
    ensures EnumeratedUpTo(level, cards, if IsASet(level, cards[i], cards[j], cards[k]) then r + [Key(i, j, k)] else r, i, j, k + 1)
  {
    if IsASet(level, cards[i], cards[j], cards[k]) {
      EnumeratedAppend(level, cards, r, i, j, k);
    } else {
      forall a, b, c | 0 <= a < b < c < NUM_CARDS
        ensures Key(a, b, c) in r <==> Before(a, b, c, i, j, k + 1) && IsASet(level, cards[a], cards[b], cards[c])
      {
        assert Before(a, b, c, i, j, k + 1) <==> Before(a, b, c, i, j, k) || (a == i && b == j && c == k);
      }
    }
  }

  /** Appending the key of the Set (i, j, k) keeps the enumeration exact. */
  lemma EnumeratedAppend(level: Level, cards: seq<Card>, r: seq<string>, i: int, j: int, k: int)
    requires |cards| == NUM_CARDS && EnumeratedUpTo(level, cards, r, i, j, k)
    requires 0 <= i < j < k < NUM_CARDS && IsASet(level, cards[i], cards[j], cards[k])
    ensures EnumeratedUpTo(level, cards, r + [Key(i, j, k)], i, j, k + 1)
  {
    var key := Key(i, j, k);
    KeyCanonical(i, j, k);
    assert key !in r;
    var r' := r + [key];
    assert Distinct(r');
    forall a, b, c | 0 <= a < b < c < NUM_CARDS
      ensures Key(a, b, c) in r' <==> Before(a, b, c, i, j, k + 1) && IsASet(level, cards[a], cards[b], cards[c])
    {
      if Key(a, b, c) == key {
        KeyInjective(a, b, c, i, j, k);
      }
      assert Key(a, b, c) in r' <==> Key(a, b, c) in r || Key(a, b, c) == key;
    }
  }

  /** The key of the triple the loop visits now comes after every key
      already found. */
  lemma OrderedAppend(level: Level, cards: seq<Card>, r: seq<string>, i: int, j: int, k: int)
    requires |cards| == NUM_CARDS && EnumeratedUpTo(level, cards, r, i, j, k) && InLoopOrder(r)
    requires 0 <= i < j < k < NUM_CARDS
    ensures InLoopOrder(r + [Key(i, j, k)])
  {
    var r' := r + [Key(i, j, k)];
    forall m | 0 <= m < |r|
      ensures KeyBefore(r[m], Key(i, j, k))
    {
      forall a, b, c, x, y, z |
        0 <= a < b < c < NUM_CARDS && 0 <= x < y < z < NUM_CARDS && r[m] == Key(a, b, c) && Key(i, j, k) == Key(x, y, z)
        ensures Before(a, b, c, x, y, z)
      {
        KeyInjective(x, y, z, i, j, k);
        assert Key(a, b, c) in r;
      }
    }
    assert forall m, n :: 0 <= m < n < |r'| ==> r'[m] == r[m] && (n == |r| ==> r'[n] == Key(i, j, k));
  }

  /** The enumeration holds exactly the keys of the triples that are Sets. */
  lemma EnumeratedSetsAreExact(level: Level, cards: seq<Card>, r: seq<string>, t: string)
    requires |cards| == NUM_CARDS && EnumeratesSets(level, cards, r)
    ensures t in r <==> exists a, b, c :: 0 <= a < b < c < NUM_CARDS && Key(a, b, c) == t &&
                                          IsASet(level, cards[a], cards[b], cards[c])
  {
    if t in r {
      var a, b, c := CanonicalIsKey(t);
      assert Key(a, b, c) == t && IsASet(level, cards[a], cards[b], cards[c]);
    }
  }

  /** The enumeration is empty exactly when no three cards form a Set. */
  lemma EnumerationEmptyIffNoSet(level: Level, cards: seq<Card>, r: seq<string>)
    requires |cards| == NUM_CARDS && EnumeratesSets(level, cards, r)
    ensures r != [] <==> HasASet(level, cards)
  {
    if r != [] {
      var a, b, c := CanonicalIsKey(r[0]);
      assert IsASet(level, cards[a], cards[b], cards[c]);
    }
    if HasASet(level, cards) {
      var a, b, c :| 0 <= a < b < c < NUM_CARDS && IsASet(level, cards[a], cards[b], cards[c]);
      assert Key(a, b, c) in r;
    }
  }

  /** The different cards among those already placed and the draws from
      `pos` on. */
  ghost function Available(draws: seq<Card>, pos: nat, cards: seq<Card>): set<Card>
    requires pos <= |draws|
  {
    (set c | c in cards) + (set c | c in draws[pos..])
  }

  /** A list without repetitions has as many different elements as entries. */
  lemma {:induction false} DistinctCount(cards: seq<Card>)
    requires Distinct(cards)
    ensures |set c | c in cards| == |cards|
  {
    if cards != [] {
      var last := cards[|cards| - 1];
      var init := cards[..|cards| - 1];
      assert Distinct(init);
      DistinctCount(init);
      assert (set c | c in cards) == (set c | c in init) + {last};
      assert last !in init;
    }
  }

  /** The result of filling one board: its twelve cards and the position
      of the next draw. */
  datatype Fill = Fill(cards: seq<Card>, next: nat)

  /** One round of the deal: starting from `cards`, each draw from `pos` on
      equal to a card already placed is skipped, and the others are placed
      until there are twelve. None when the draws run out first. */
  function FillBoard(draws: seq<Card>, pos: nat, cards: seq<Card>): (r: Option<Fill>)
    requires pos <= |draws| && |cards| <= NUM_CARDS && Distinct(cards)
    ensures r.Some? ==> |r.value.cards| == NUM_CARDS && Distinct(r.value.cards)
    ensures r.Some? ==> cards <= r.value.cards && pos + NUM_CARDS - |cards| <= r.value.next <= |draws|
    ensures r.Some? ==> forall c :: c in r.value.cards ==> c in cards || c in draws
    decreases |draws| - pos
  {
    if |cards| == NUM_CARDS then Some(Fill(cards, pos))
    else if pos == |draws| then None
    else if draws[pos] in cards then FillBoard(draws, pos + 1, cards)
    else FillBoard(draws, pos + 1, cards + [draws[pos]])
  }

  /** One draw of a round that is not yet full: skipped when already placed, placed otherwise. */
  lemma FillStep(draws: seq<Card>, pos: nat, cards: seq<Card>)
    requires pos < |draws| && |cards| < NUM_CARDS && Distinct(cards)
    ensures draws[pos] !in cards ==> Distinct(cards + [draws[pos]])
    ensures FillBoard(draws, pos, cards) ==
      if draws[pos] in cards then FillBoard(draws, pos + 1, cards)
      else FillBoard(draws, pos + 1, cards + [draws[pos]])
  {
  }

  /** Skipping or placing the next draw leaves the different cards available unchanged. */
  lemma AvailableNext(draws: seq<Card>, pos: nat, cards: seq<Card>)
    requires pos < |draws|
    ensures draws[pos] in cards ==> Available(draws, pos, cards) == Available(draws, pos + 1, cards)
    ensures Available(draws, pos, cards) == Available(draws, pos + 1, cards + [draws[pos]])
  {
    assert draws[pos..] == [draws[pos]] + draws[pos + 1..];
  }

  /** A round of the deal runs out of draws exactly when the cards placed
      and the draws left hold fewer than twelve different cards. */
  lemma {:induction false} FillNoneIffFewCards(draws: seq<Card>, pos: nat, cards: seq<Card>)
    requires pos <= |draws| && |cards| <= NUM_CARDS && Distinct(cards)
    ensures FillBoard(draws, pos, cards).None? <==> |Available(draws, pos, cards)| < NUM_CARDS
    decreases |draws| - pos
  {
    DistinctCount(cards);
    if |cards| == NUM_CARDS {
      var placed := set c | c in cards;
      var rest := Available(draws, pos, cards) - placed;
      assert Available(draws, pos, cards) == placed + rest && placed * rest == {};
    } else if pos == |draws| {
      assert Available(draws, pos, cards) == set c | c in cards;
    } else {
      AvailableNext(draws, pos, cards);
      if draws[pos] in cards {
        FillNoneIffFewCards(draws, pos + 1, cards);
      } else {
        FillNoneIffFewCards(draws, pos + 1, cards + [draws[pos]]);
      }
    }
  }

  /** The deal from the draws at `pos` on: boards are filled one after the
      other until one has a Set. */
  ghost function DealFrom(level: Level, draws: seq<Card>, pos: nat): (r: Option<seq<Card>>)
    requires pos <= |draws|
    ensures r.Some? ==> |r.value| == NUM_CARDS && Distinct(r.value) && HasASet(level, r.value)
    ensures r.Some? ==> forall c :: c in r.value ==> c in draws
    decreases |draws| - pos
  {
    match FillBoard(draws, pos, [])
    case None => None
    case Some(f) => if HasASet(level, f.cards) then Some(f.cards) else DealFrom(level, draws, f.next)
  }

  /** Draws that are all different and not yet placed fill the board in order. */
  lemma {:induction false} FillDistinctRun(draws: seq<Card>, pos: nat, cards: seq<Card>, k: nat)
    requires pos + k <= |draws| && |cards| + k == NUM_CARDS
    requires Distinct(cards + draws[pos..pos + k])
    ensures Distinct(cards)
    ensures FillBoard(draws, pos, cards) == Some(Fill(cards + draws[pos..pos + k], pos + k))
    decreases k
  {
    var run := cards + draws[pos..pos + k];
    assert forall i :: 0 <= i < |cards| ==> run[i] == cards[i];
    if k == 0 {
      assert run == cards;
    } else {
      assert run[|cards|] == draws[pos];
      assert draws[pos] !in cards;
      assert run == (cards + [draws[pos]]) + draws[pos + 1..pos + k];
      FillDistinctRun(draws, pos + 1, cards + [draws[pos]], k - 1);
    }
  }

  /** Twelve different first draws with a Set are the board dealt. */
  lemma DealFirstBoard(level: Level, draws: seq<Card>)
    ensures |draws| >= NUM_CARDS && Distinct(draws[..NUM_CARDS]) && HasASet(level, draws[..NUM_CARDS]) ==>
      DealFrom(level, draws, 0) == Some(draws[..NUM_CARDS])
  {
    if |draws| >= NUM_CARDS && Distinct(draws[..NUM_CARDS]) {
      FirstFill(draws);
    }
  }

  /** Twelve different first draws fill the first board. */
  lemma FirstFill(draws: seq<Card>)
    requires |draws| >= NUM_CARDS && Distinct(draws[..NUM_CARDS])
    ensures FillBoard(draws, 0, []) == Some(Fill(draws[..NUM_CARDS], NUM_CARDS))
  {
    var none: seq<Card> := [];
    assert none + draws[0..NUM_CARDS] == draws[..NUM_CARDS];
    FillDistinctRun(draws, 0, none, NUM_CARDS);
  }

  /** More draws never change a board already filled. */
  lemma {:induction false} FillExtends(draws: seq<Card>, more: seq<Card>, pos: nat, cards: seq<Card>)
    requires pos <= |draws| && |cards| <= NUM_CARDS && Distinct(cards)
    requires FillBoard(draws, pos, cards).Some?
    ensures FillBoard(draws + more, pos, cards) == FillBoard(draws, pos, cards)
    decreases |draws| - pos
  {
    if |cards| < NUM_CARDS {
      assert (draws + more)[pos] == draws[pos];
      if draws[pos] in cards {
        FillExtends(draws, more, pos + 1, cards);
      } else {
        FillExtends(draws, more, pos + 1, cards + [draws[pos]]);
      }
    }
  }

  /** A board dealt from some draws is still the board dealt when more
      draws follow: the deal depends only on the draws it consumed. */
  lemma {:induction false} DealExtends(level: Level, draws: seq<Card>, more: seq<Card>, pos: nat)
    requires pos <= |draws| && DealFrom(level, draws, pos).Some?
    ensures DealFrom(level, draws + more, pos) == DealFrom(level, draws, pos)
    decreases |draws| - pos
  {
    FillExtends(draws, more, pos, []);
    var f := FillBoard(draws, pos, []).value;
    if !HasASet(level, f.cards) {
      DealExtends(level, draws, more, f.next);
    }
  }

  /** `q` is where a round of the deal from `pos` starts: `pos` itself, or
      the start of a later round reached because every board filled before
      it had no Set. */
  ghost predicate RoundStart(level: Level, draws: seq<Card>, pos: nat, q: nat)
    requires pos <= |draws|
    decreases |draws| - pos
  {
    q == pos ||
    match FillBoard(draws, pos, [])
    case None => false
    case Some(f) => !HasASet(level, f.cards) && RoundStart(level, draws, f.next, q)
  }

  /** Rounds start at or after `pos` and within the draws. */
  lemma {:induction false} RoundStartBounds(level: Level, draws: seq<Card>, pos: nat, q: nat)
    requires pos <= |draws| && RoundStart(level, draws, pos, q)
    ensures pos <= q <= |draws|
    decreases |draws| - pos
  {
    if q != pos {
      RoundStartBounds(level, draws, FillBoard(draws, pos, []).value.next, q);
    }
  }

  /** The deal gives no board exactly when one of its rounds starts where
      the draws left hold fewer than twelve different cards. */
  lemma {:induction false} DealNoneIffRanOut(level: Level, draws: seq<Card>, pos: nat)
    requires pos <= |draws|
    ensures DealFrom(level, draws, pos).None? <==>
      exists q :: pos <= q <= |draws| && RoundStart(level, draws, pos, q) && |Available(draws, q, [])| < NUM_CARDS
    decreases |draws| - pos
  {
    FillNoneIffFewCards(draws, pos, []);
    var f := FillBoard(draws, pos, []);
    if f.Some? && !HasASet(level, f.value.cards) {
      DealNoneIffRanOut(level, draws, f.value.next);
      if DealFrom(level, draws, pos).None? {
        var q :| f.value.next <= q <= |draws| && RoundStart(level, draws, f.value.next, q) &&
                 |Available(draws, q, [])| < NUM_CARDS;
        assert RoundStart(level, draws, pos, q);
      } else {
        forall q | pos <= q <= |draws| && RoundStart(level, draws, pos, q)
          ensures |Available(draws, q, [])| >= NUM_CARDS
        {
          if q != pos {
            RoundStartBounds(level, draws, f.value.next, q);
          }
        }
      }
    } else if f.Some? {
      forall q | pos <= q <= |draws| && RoundStart(level, draws, pos, q)
        ensures q == pos
      {
      }
    } else {
      assert RoundStart(level, draws, pos, pos);
    }
  }

  /** One round of the deal: twelve cards drawn from `draws` at `pos` on,
      a card equal to one already placed being drawn again. */
  method DrawBoard(draws: seq<Card>, pos: nat) returns (r: Option<Fill>)
    requires pos <= |draws|
    ensures r == FillBoard(draws, pos, [])
  {
    var next := pos;
    var cards: seq<Card> := [];
    var i := 0;
    while i < NUM_CARDS
      invariant 0 <= i <= NUM_CARDS && |cards| == i && Distinct(cards)
      invariant pos + i <= next <= |draws|
      invariant FillBoard(draws, pos, []) == FillBoard(draws, next, cards)
    {
      while next < |draws| && draws[next] in cards
        invariant pos + i <= next <= |draws|
        invariant FillBoard(draws, pos, []) == FillBoard(draws, next, cards)
      {
        FillStep(draws, next, cards);
        next := next + 1;
      }
      if next == |draws| {
        return None;
      }
      FillStep(draws, next, cards);
      cards := cards + [draws[next]];
      next := next + 1;
      i := i + 1;
    }
    r := Some(Fill(cards, next));
  }

  /** The deal: boards are drawn from `draws` (the plugin's random source)
      until one has a Set; a whole board of twelve with no Set is dealt
      again. Running out of draws gives None. */
  method Deal(level: Level, draws: seq<Card>) returns (r: Option<seq<Card>>)
    requires forall c :: c in draws ==> InDomain(level, c)
    ensures r == DealFrom(level, draws, 0)
    ensures r.Some? ==> |r.value| == NUM_CARDS && Distinct(r.value) && HasASet(level, r.value)
    ensures r.Some? ==> forall c :: c in r.value ==> c in draws && InDomain(level, c)
    ensures |draws| >= NUM_CARDS && Distinct(draws[..NUM_CARDS]) && HasASet(level, draws[..NUM_CARDS]) ==>
      r == Some(draws[..NUM_CARDS])
  {
    DealFirstBoard(level, draws);
    var pos := 0;
    var cards: seq<Card> := [];
    var sets: seq<string> := [];
    while sets == []
      invariant 0 <= pos <= |draws|
      invariant sets == [] ==> DealFrom(level, draws, 0) == DealFrom(level, draws, pos)
      invariant sets != [] ==> DealFrom(level, draws, 0) == Some(cards)
      decreases |draws| - pos
    {
      var drawn := DrawBoard(draws, pos);
      if drawn.None? {
        return None;
      }
      cards, pos := drawn.value.cards, drawn.value.next;
      sets := FindSets(level, cards);
      EnumerationEmptyIffNoSet(level, cards, sets);
    }
    r := Some(cards);
  }

  /** The text for a list of Sets: their keys separated by ", ", or "-none-". */
  function SetsText(sets: seq<string>): (r: string)
    ensures sets == [] ==> r == "-none-"
  {
    if |sets| == 0 then "-none-" else Join(sets, ", ")
  }

  /** Python's `sep.join(parts)`: the parts in order, with `sep` between
      neighbours. */
  function Join(parts: seq<string>, sep: string): (r: string)
    ensures parts == [] ==> r == ""
    ensures parts != [] ==> parts[0] <= r
    ensures parts != [] ==> var last := parts[|parts| - 1];
      |last| <= |r| && r[|r| - |last|..] == last
  {
    if |parts| == 0 then ""
    else if |parts| == 1 then parts[0]
    else parts[0] + sep + Join(parts[1..], sep)
  }

  lemma {:induction false} JoinLength(parts: seq<string>, sep: string)
    requires |parts| >= 1 && forall i :: 0 <= i < |parts| ==> |parts[i]| == 3
    ensures |Join(parts, sep)| == 3 * |parts| + |sep| * (|parts| - 1)
  {
    if |parts| > 1 {
      JoinLength(parts[1..], sep);
    }
  }

  /** A list of three-key Sets reads "-none-" exactly when it is empty. */
  lemma NoneOnlyWhenEmpty(sets: seq<string>)
    requires forall i :: 0 <= i < |sets| ==> |sets[i]| == 3
    ensures SetsText(sets) == "-none-" <==> sets == []
  {
    if sets != [] {
      JoinLength(sets, ", ");
      assert |SetsText(sets)| == 5 * |sets| - 2;
    }
  }

  /** A dealt board with its lists of Sets not yet found (`sets`) and found. */
  class Board {
    const level: Level
    const cards: seq<Card>
    /** Every Set of the board, as enumerated when it was dealt. */
    ghost const allSets: seq<string>
    const totalNumSets: int
    var sets: seq<string>
    var foundSets: seq<string>
    var setCount: int

    /** The judging state of the board. */
    function State(): Pool
      reads this
    {
      Pool(sets, foundSets, setCount, totalNumSets)
    }

    /** A dealt board whose Sets are split between `sets` and `foundSets`. */
    ghost predicate Valid()
      reads this
    {
      Dealt() && InPlay()
    }

    /** Twelve distinct cards whose Sets, at least one, are `allSets`. */
    ghost predicate Dealt() {
      |cards| == NUM_CARDS && Distinct(cards) &&
      EnumeratesSets(level, cards, allSets) && |allSets| == totalNumSets >= 1
    }

    /** `sets` and `foundSets` split `allSets` between them, and
        `setCount` counts the found ones. */
    ghost predicate InPlay()
      reads this
    {
      PoolValid(State()) && forall t :: InPool(State(), t) <==> t in allSets
    }

    /** A board for dealt cards: all its Sets are still to be found. */
    constructor (level: Level, cards: seq<Card>)
      requires |cards| == NUM_CARDS && Distinct(cards) && HasASet(level, cards)
      ensures Valid()
      ensures this.level == level && this.cards == cards
      ensures sets == allSets && foundSets == [] && setCount == 0 && totalNumSets == |sets|
    {
      var found := FindSets(level, cards);
      EnumerationEmptyIffNoSet(level, cards, found);
      this.level := level;
      this.cards := cards;
      allSets := found;
      sets := found;
      foundSets := [];
      setCount := 0;
      totalNumSets := |found|;
    }

    /** Judges the guesses in order, moving each newly found Set from
        `sets` to `foundSets`, and returns the good guesses, the numbers
        of wrong, duplicate and invalid guesses, and the points won. */
    method CheckAnswer(guesses: seq<string>) returns (good: seq<string>, bad: int, dup: int, invalid: int, scoreDelta: int)
      requires InPlay() && WellFormed(guesses)
      modifies this
      ensures InPlay()
      ensures var b := JudgeAll(old(State()), guesses);
        State() == b.pool && Tally(good, bad, dup, invalid, scoreDelta) == b.tally
    {
      good := [];
      bad, dup, invalid, scoreDelta := 0, 0, 0, 0;
      ghost var start := State();
      ghost var b := JudgeAll(start, []);
      var i := 0;
      while i < |guesses|
        invariant 0 <= i <= |guesses| && b == JudgeAll(start, guesses[..i])
        invariant sets == b.pool.notFound && foundSets == b.pool.found && setCount == b.pool.setCount
        invariant good == b.tally.good && bad == b.tally.bad && dup == b.tally.dup
        invariant invalid == b.tally.invalid && scoreDelta == b.tally.scoreDelta
      {
        var guess := guesses[i];
        JudgeAllStep(start, guesses, i);
        b := JudgeAll(start, guesses[..i + 1]);
        var sortedGuess := Sort3(guess);
        if sortedGuess[0] == sortedGuess[1] || sortedGuess[1] == sortedGuess[2] {
          invalid := invalid + 1;
        } else if sortedGuess in sets {
          sets := RemoveFirst(sets, sortedGuess);
          foundSets := foundSets + [sortedGuess];
          good := good + [guess];
          setCount := setCount + 1;
          scoreDelta := scoreDelta + ScoreFor(setCount, totalNumSets);
        } else if sortedGuess in foundSets {
          dup := dup + 1;
        } else {
          bad := bad + 1;
          scoreDelta := scoreDelta - 2;
        }
        i := i + 1;
      }
      assert guesses[..i] == guesses;
    }

    /** The text of the Sets not yet found. */
    function NotFoundSetsText(): (r: string)
      reads this
      ensures sets == [] ==> r == "-none-"
    {
      SetsText(sets)
    }

    /** The text of the Sets found. */
    function FoundSetsText(): (r: string)
      reads this
      ensures foundSets == [] ==> r == "-none-"
    {
      SetsText(foundSets)
    }
  }

  /** On a board in play, a guess naming three different positions is wrong
      exactly when its three cards do not form a Set, whatever their order
      in the guess. */
  lemma WrongIffNotASet(level: Level, cards: seq<Card>, allSets: seq<string>, p: Pool,
                        x: int, y: int, z: int)
    requires |cards| == NUM_CARDS && EnumeratesSets(level, cards, allSets)
    requires PoolValid(p) && forall t :: InPool(p, t) <==> t in allSets
    requires 0 <= x < NUM_CARDS && 0 <= y < NUM_CARDS && 0 <= z < NUM_CARDS
    requires x != y && y != z && x != z
    ensures var st := Judge(p, [KEYMAP[x], KEYMAP[y], KEYMAP[z]]);
      st.outcome != Invalid &&
      (st.outcome == Bad <==> !IsASet(level, cards[x], cards[y], cards[z]))
  {
    var guess := [KEYMAP[x], KEYMAP[y], KEYMAP[z]];
    if KEYMAP[x] == KEYMAP[y] { KeymapInjective(x, y); }
    if KEYMAP[y] == KEYMAP[z] { KeymapInjective(y, z); }
    if KEYMAP[x] == KEYMAP[z] { KeymapInjective(x, z); }
    assert !HasRepeatedKey(guess);
    var a, b, c := SortPositions(x, y, z);
    GuessKey(x, y, z, a, b, c);
    BadIffOutsidePool(p, guess);
    IsASetSymmetric(level, cards[x], cards[y], cards[z]);
    assert IsASet(level, cards[x], cards[y], cards[z]) == IsASet(level, cards[a], cards[b], cards[c]);
    assert InPool(p, Key(a, b, c)) <==> Key(a, b, c) in allSets;
  }
}
