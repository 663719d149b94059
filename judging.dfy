/** How a batch of guesses is judged against the board's two lists of Sets
    (not yet found, found) and how it is scored: the specification that the
    board's `CheckAnswer` method is proved against. */
module Judging {
  import opened Keys
  import opened Lists

  /** Python 2 `round` of the non-negative rational n/d: the nearest
      integer, halves rounded away from zero (upwards here). */
  function RoundHalfUp(n: int, d: int): (r: int)
    requires n >= 0 && d > 0
    ensures d * (2 * r - 1) <= 2 * n < d * (2 * r + 1)
  {
    var q := (2 * n + d) / (2 * d);
    assert 2 * n + d == 2 * d * q + (2 * n + d) % (2 * d);
    q
  }

  lemma CancelPositive(d: int, x: int, y: int)
    requires d > 0 && d * x < d * y
    ensures x < y
  {
    assert d * (y - x) > 0;
  }

  /** Only one integer lies within a half of n/d (halves going up). */
  lemma RoundUnique(n: int, d: int, r: int)
    requires n >= 0 && d > 0
    requires d * (2 * r - 1) <= 2 * n < d * (2 * r + 1)
    ensures r == RoundHalfUp(n, d)
  {
    var q := RoundHalfUp(n, d);
    CancelPositive(d, 2 * r - 1, 2 * q + 1);
    CancelPositive(d, 2 * q - 1, 2 * r + 1);
  }

  /** Points for the setCount-th Set found out of totalNumSets:
      `round(setCount*2.5/totalNumSets + (setCount==totalNumSets)/2) + 1`.
      Under Python 2 the bonus `(setCount==totalNumSets)/2` is an integer
      division and always 0, and `round` sends halves away from zero, so
      the value is the exact rational 5*setCount/(2*totalNumSets) rounded
      half up, plus one. */
  function ScoreFor(setCount: int, totalNumSets: int): (delta: int)
    requires 1 <= setCount <= totalNumSets
    ensures 1 <= delta <= 4
  {
    var bonus := (if setCount == totalNumSets then 1 else 0) / 2;
    var d := 2 * totalNumSets;
    var r := RoundHalfUp(5 * setCount + d * bonus, d);
    CancelPositive(d, -1, 2 * r + 1);
    CancelPositive(d, 2 * r - 1, 7);
    r + 1
  }

  /** The score in integer arithmetic. */
  lemma ScoreClosedForm(c: int, t: int)
    requires 1 <= c <= t
    ensures ScoreFor(c, t) == (5 * c + t) / (2 * t) + 1
  {
    assert ScoreFor(c, t) == RoundHalfUp(5 * c, 2 * t) + 1;
    DivideBoth(5 * c + t, 2 * t);
  }

  /** Doubling dividend and divisor leaves the quotient unchanged. */
  lemma DivideBoth(k: int, m: int)
    requires k >= 0 && m > 0
    ensures (2 * k) / (2 * m) == k / m
  {
    var q, r := k / m, k % m;
    assert 2 * k == (2 * m) * q + 2 * r && 0 <= 2 * r < 2 * m;
    DivisionUnique(2 * k, 2 * m, q, 2 * r);
  }

  /** The quotient is the only q with k == m * q + r for a remainder 0 <= r < m. */
  lemma DivisionUnique(k: int, m: int, q: int, r: int)
    requires m > 0 && k == m * q + r && 0 <= r < m
    ensures k / m == q
  {
    var q', r' := k / m, k % m;
    assert k == m * q' + r' && 0 <= r' < m;
    assert m * (q - q') == r' - r;
    CancelPositive(m, q - q', 1);
    CancelPositive(m, -1, q - q');
  }

  /** Five Sets on the board: the first found is worth 2, the last 4. */
  lemma ScoreExamples()
    ensures ScoreFor(1, 5) == 2
    ensures ScoreFor(5, 5) == 4
  {
    RoundUnique(5, 10, 1);
    RoundUnique(25, 10, 3);
  }

  /** Had the last-Set bonus been the half point it reads as, the score
      would be the same: the last Set is worth round(2.5) + 1 = 4 either way. */
  lemma IntendedBonusChangesNothing(c: int, t: int)
    requires 1 <= c <= t
    ensures RoundHalfUp(5 * c + (if c == t then t else 0), 2 * t) + 1 == ScoreFor(c, t)
  {
    if c == t {
      RoundUnique(6 * t, 2 * t, 3);
      RoundUnique(5 * t, 2 * t, 3);
    }
  }

  /** The judging state of a board: its list of Sets not yet found (`sets`),
      its list of found Sets, the number found, and the number dealt. */
  datatype Pool = Pool(notFound: seq<string>, found: seq<string>, setCount: int, total: int)

  /** The board's invariant: the two lists are without repetitions and
      disjoint, together they hold every Set dealt, and `setCount` counts
      the found ones. */
  predicate PoolValid(p: Pool) {
    Distinct(p.notFound) && Distinct(p.found) &&
    (forall t :: t in p.notFound ==> t !in p.found) &&
    |p.notFound| + |p.found| == p.total && p.setCount == |p.found|
  }

  /** Every Set of the pool, found or not. */
  predicate InPool(p: Pool, t: string) {
    t in p.notFound || t in p.found
  }

  /** The four outcomes of one guess. */
  datatype Outcome = Good | Bad | Dup | Invalid

  datatype Step = Step(outcome: Outcome, pool: Pool, points: int)

  /** One guess judged against the pool, in the order the board tries:
      a repeated key, a Set not yet found, a Set already found, anything else. */
  function Judge(p: Pool, guess: string): (st: Step)
    requires |guess| == 3 && PoolValid(p)
    ensures PoolValid(st.pool) && st.pool.total == p.total
    ensures forall t :: InPool(st.pool, t) <==> InPool(p, t)
    ensures st.outcome == Invalid <==> HasRepeatedKey(guess)
    ensures st.outcome == Good <==> !HasRepeatedKey(guess) && Sort3(guess) in p.notFound
    ensures st.outcome == Dup <==> !HasRepeatedKey(guess) && Sort3(guess) !in p.notFound && Sort3(guess) in p.found
    ensures st.outcome != Good ==> st.pool == p
    ensures st.outcome == Good ==>
      st.pool.found == p.found + [Sort3(guess)] &&
      st.pool.setCount == p.setCount + 1 &&
      (forall t :: t in st.pool.notFound <==> t in p.notFound && t != Sort3(guess))
    ensures st.outcome == Good ==> 1 <= st.points <= 4 && st.points == ScoreFor(p.setCount + 1, p.total)
    ensures st.outcome == Bad ==> st.points == -2
    ensures st.outcome == Dup || st.outcome == Invalid ==> st.points == 0
  {
    var sortedGuess := Sort3(guess);
    Sort3Repeats(guess);
    if sortedGuess[0] == sortedGuess[1] || sortedGuess[1] == sortedGuess[2] then
      Step(Invalid, p, 0)
    else if sortedGuess in p.notFound then
      RemoveFirstDistinct(p.notFound, sortedGuess);
      var setCount := p.setCount + 1;
      Step(Good, Pool(RemoveFirst(p.notFound, sortedGuess), p.found + [sortedGuess], setCount, p.total),
           ScoreFor(setCount, p.total))
    else if sortedGuess in p.found then
      Step(Dup, p, 0)
    else
      Step(Bad, p, -2)
  }

  /** What `checkAnswer` returns: the guesses that found a Set, in order,
      the numbers of wrong, duplicate and invalid guesses, and the sum of
      the points. */
  datatype Tally = Tally(good: seq<string>, bad: int, dup: int, invalid: int, scoreDelta: int)

  /** The tally after one more judged guess: the guess counts under its
      outcome and nowhere else, a good guess is listed, and its points are
      added. */
  function Record(t: Tally, guess: string, st: Step): (r: Tally)
    ensures r.good == t.good + (if st.outcome == Good then [guess] else [])
    ensures r.bad == t.bad + (if st.outcome == Bad then 1 else 0)
    ensures r.dup == t.dup + (if st.outcome == Dup then 1 else 0)
    ensures r.invalid == t.invalid + (if st.outcome == Invalid then 1 else 0)
    ensures r.scoreDelta == t.scoreDelta + st.points
  {
    match st.outcome
    case Good => t.(good := t.good + [guess], scoreDelta := t.scoreDelta + st.points)
    case Bad => t.(bad := t.bad + 1, scoreDelta := t.scoreDelta + st.points)
    case Dup => t.(dup := t.dup + 1, scoreDelta := t.scoreDelta + st.points)
    case Invalid => t.(invalid := t.invalid + 1, scoreDelta := t.scoreDelta + st.points)
  }

  datatype Batch = Batch(pool: Pool, tally: Tally)

  /** Every guess is three characters long. */
  predicate WellFormed(guesses: seq<string>) {
    forall i :: 0 <= i < |guesses| ==> |guesses[i]| == 3
  }

  /** The guesses judged one after the other, each against the pool the
      previous ones left. */
  function JudgeAll(p: Pool, guesses: seq<string>): (b: Batch)
    requires PoolValid(p) && WellFormed(guesses)
    ensures PoolValid(b.pool) && b.pool.total == p.total
    ensures forall t :: InPool(b.pool, t) <==> InPool(p, t)
    ensures WellFormed(b.tally.good)
    decreases |guesses|
  {
    if guesses == [] then Batch(p, Tally([], 0, 0, 0, 0))
    else
      var prev := JudgeAll(p, guesses[..|guesses| - 1]);
      var guess := guesses[|guesses| - 1];
      var st := Judge(prev.pool, guess);
      Batch(st.pool, Record(prev.tally, guess, st))
  }

  /** Judging one more guess extends the batch by one step. */
  lemma JudgeAllNext(p: Pool, guesses: seq<string>, i: int)
    requires PoolValid(p) && WellFormed(guesses) && 0 <= i < |guesses|
    ensures var prev := JudgeAll(p, guesses[..i]);
      var st := Judge(prev.pool, guesses[i]);
      JudgeAll(p, guesses[..i + 1]) == Batch(st.pool, Record(prev.tally, guesses[i], st))
  {
    assert guesses[..i + 1][..i] == guesses[..i];
  }

  /** One guess judged and recorded, case by case in the order the board
      tries them: the pool and the tally that follow. */
  lemma JudgeStep(p: Pool, t: Tally, guess: string)
    requires |guess| == 3 && PoolValid(p)
    ensures var s := Sort3(guess);
      var st := Judge(p, guess);
      var r := Record(t, guess, st);
      if s[0] == s[1] || s[1] == s[2] then
        st.pool == p && r == t.(invalid := t.invalid + 1)
      else if s in p.notFound then
        st.pool == Pool(RemoveFirst(p.notFound, s), p.found + [s], p.setCount + 1, p.total) &&
        r == t.(good := t.good + [guess], scoreDelta := t.scoreDelta + ScoreFor(p.setCount + 1, p.total))
      else if s in p.found then
        st.pool == p && r == t.(dup := t.dup + 1)
      else
        st.pool == p && r == t.(bad := t.bad + 1, scoreDelta := t.scoreDelta - 2)
  {
  }

  /** A batch one guess longer, case by case in the order the board tries
      them: the pool and the tally after the shorter batch, updated. */
  lemma JudgeAllStep(p: Pool, guesses: seq<string>, i: int)
    requires PoolValid(p) && WellFormed(guesses) && 0 <= i < |guesses|
    ensures var b := JudgeAll(p, guesses[..i]);
      var b' := JudgeAll(p, guesses[..i + 1]);
      var q := b.pool;
      var t := b.tally;
      var s := Sort3(guesses[i]);
      if s[0] == s[1] || s[1] == s[2] then
        b' == Batch(q, t.(invalid := t.invalid + 1))
      else if s in q.notFound then
        b' == Batch(Pool(RemoveFirst(q.notFound, s), q.found + [s], q.setCount + 1, q.total),
                    t.(good := t.good + [guesses[i]], scoreDelta := t.scoreDelta + ScoreFor(q.setCount + 1, q.total)))
      else if s in q.found then
        b' == Batch(q, t.(dup := t.dup + 1))
      else
        b' == Batch(q, t.(bad := t.bad + 1, scoreDelta := t.scoreDelta - 2))
  {
    var b := JudgeAll(p, guesses[..i]);
    JudgeAllNext(p, guesses, i);
    JudgeStep(b.pool, b.tally, guesses[i]);
  }

  /** The sorted form of each guess. */
  function SortAll(guesses: seq<string>): (r: seq<string>)
    requires WellFormed(guesses)
    ensures |r| == |guesses|
    ensures forall i :: 0 <= i < |r| ==> r[i] == Sort3(guesses[i])
  {
    if guesses == [] then []
    else SortAll(guesses[..|guesses| - 1]) + [Sort3(guesses[|guesses| - 1])]
  }

  /** Every guess of a batch has exactly one outcome. */
  lemma {:induction false} TallyCountsEveryGuess(p: Pool, guesses: seq<string>)
    requires PoolValid(p) && WellFormed(guesses)
    ensures var t := JudgeAll(p, guesses).tally;
      |t.good| + t.bad + t.dup + t.invalid == |guesses| &&
      t.bad >= 0 && t.dup >= 0 && t.invalid >= 0
  {
    if guesses != [] {
      TallyCountsEveryGuess(p, guesses[..|guesses| - 1]);
    }
  }

  /** A batch appends exactly the sorted good guesses, in order, to the
      found list, and counts them. */
  lemma {:induction false} BatchFindsGoodGuesses(p: Pool, guesses: seq<string>)
    requires PoolValid(p) && WellFormed(guesses)
    ensures var b := JudgeAll(p, guesses);
      b.pool.found == p.found + SortAll(b.tally.good) &&
      b.pool.setCount == p.setCount + |b.tally.good|
  {
    if guesses != [] {
      var init := guesses[..|guesses| - 1];
      BatchFindsGoodGuesses(p, init);
      var prev := JudgeAll(p, init);
      var guess := guesses[|guesses| - 1];
      var st := Judge(prev.pool, guess);
      var b := JudgeAll(p, guesses);
      assert b == Batch(st.pool, Record(prev.tally, guess, st));
      if st.outcome == Good {
        assert b.tally.good == prev.tally.good + [guess];
        SortAllSnoc(prev.tally.good, guess);
      } else {
        assert b.tally.good == prev.tally.good;
      }
    }
  }

  lemma SortAllSnoc(guesses: seq<string>, guess: string)
    requires WellFormed(guesses) && |guess| == 3
    ensures WellFormed(guesses + [guess])
    ensures SortAll(guesses + [guess]) == SortAll(guesses) + [Sort3(guess)]
  {
    var l := guesses + [guess];
    assert l[..|l| - 1] == guesses;
  }

  /** A batch removes exactly the sorted good guesses from the not-found list. */
  lemma {:induction false} BatchRemovesGoodGuesses(p: Pool, guesses: seq<string>)
    requires PoolValid(p) && WellFormed(guesses)
    ensures var b := JudgeAll(p, guesses);
      forall t :: t in b.pool.notFound <==> t in p.notFound && t !in SortAll(b.tally.good)
  {
    if guesses != [] {
      var init := guesses[..|guesses| - 1];
      BatchRemovesGoodGuesses(p, init);
      var prev := JudgeAll(p, init);
      var guess := guesses[|guesses| - 1];
      var st := Judge(prev.pool, guess);
      var b := JudgeAll(p, guesses);
      assert b == Batch(st.pool, Record(prev.tally, guess, st));
      if st.outcome == Good {
        assert b.tally.good == prev.tally.good + [guess];
        SortAllSnoc(prev.tally.good, guess);
        forall t ensures t in b.pool.notFound <==> t in p.notFound && t !in SortAll(b.tally.good) {
          assert t in SortAll(b.tally.good) <==> t in SortAll(prev.tally.good) || t == Sort3(guess);
        }
      } else {
        assert b.tally.good == prev.tally.good;
      }
    }
  }

  /** The points of a batch: between 1 and 4 for each good guess, -2 for
      each wrong one, nothing for duplicates and invalid guesses. */
  lemma {:induction false} BatchScoreBounds(p: Pool, guesses: seq<string>)
    requires PoolValid(p) && WellFormed(guesses)
    ensures var t := JudgeAll(p, guesses).tally;
      |t.good| - 2 * t.bad <= t.scoreDelta <= 4 * |t.good| - 2 * t.bad
  {
    if guesses != [] {
      BatchScoreBounds(p, guesses[..|guesses| - 1]);
    }
  }

  /** A batch without a good guess changes nothing on the board. */
  lemma {:induction false} NoGoodGuessNoChange(p: Pool, guesses: seq<string>)
    requires PoolValid(p) && WellFormed(guesses)
    requires JudgeAll(p, guesses).tally.good == []
    ensures JudgeAll(p, guesses).pool == p
  {
    if guesses != [] {
      var init := guesses[..|guesses| - 1];
      var prev := JudgeAll(p, init);
      var st := Judge(prev.pool, guesses[|guesses| - 1]);
      assert st.outcome != Good;
      assert |prev.tally.good| <= |JudgeAll(p, guesses).tally.good|;
      NoGoodGuessNoChange(p, init);
    }
  }

  /** A guess without a repeated key is wrong exactly when its sorted
      form is in neither list. */
  lemma BadIffOutsidePool(p: Pool, guess: string)
    requires |guess| == 3 && PoolValid(p) && !HasRepeatedKey(guess)
    ensures Judge(p, guess).outcome != Invalid
    ensures Judge(p, guess).outcome == Bad <==> !InPool(p, Sort3(guess))
  {
  }

  /** A Set guessed twice in a row is good the first time and a duplicate
      the second, worth nothing. */
  lemma GoodThenDup(p: Pool, guess: string)
    requires |guess| == 3 && PoolValid(p)
    requires Judge(p, guess).outcome == Good
    ensures Judge(Judge(p, guess).pool, guess).outcome == Dup
    ensures Judge(Judge(p, guess).pool, guess).points == 0
  {
    var q := Judge(p, guess).pool;
    assert Sort3(guess) in q.found;
  }

  /** The same Set guessed twice in one batch: found once, then a
      duplicate, and only the first guess scores. */
  lemma SameSetTwiceInBatch(p: Pool, guess: string)
    requires |guess| == 3 && PoolValid(p)
    requires Judge(p, guess).outcome == Good
    ensures var b := JudgeAll(p, [guess, guess]);
      b.tally == Tally([guess], 0, 1, 0, Judge(p, guess).points)
  {
    var gs := [guess, guess];
    assert gs[..2] == gs;
    JudgeAllNext(p, gs, 1);
    assert gs[..1] == [guess];
    SingleGuess(p, guess);
    GoodThenDup(p, guess);
  }

  /** A batch of one guess is that guess judged on its own. */
  lemma SingleGuess(p: Pool, guess: string)
    requires |guess| == 3 && PoolValid(p)
    ensures var st := Judge(p, guess);
      JudgeAll(p, [guess]) == Batch(st.pool, Record(Tally([], 0, 0, 0, 0), guess, st))
  {
    assert [guess][..0] == [];
  }
}
