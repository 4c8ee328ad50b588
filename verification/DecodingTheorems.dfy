/** Batched decoding refines decoding one crop at a time. */
module DecodingTheorems {
  import opened Wrappers
  import opened Decoding

  /** The inputs of one row. */
  datatype RowInput = RowInput(token: int, hidden: Hidden, useCache: bool, past: seq<CacheRow>)

  /** The keys and values of the cross-attention of the two layers. They depend on the
   *  encoder's features only, so a solo run computes them once. */
  predicate CrossAttention(i: nat) {
    i in {2, 3, 6, 7}
  }

  /** A decoder that treats the rows of a batch independently. Whether it emits
   *  the i-th KV tensor depends on the selected branch only. */
  datatype Net = Net(
    logits: RowInput -> seq<Logit>,
    present: (RowInput, nat) -> CacheRow,
    emits: (bool, nat) -> bool)
  {
    function Input(g: Gen, b: nat): RowInput
      requires g.Valid() && b < |g.rows|
    {
      RowInput(g.rows[b].next, g.hidden[b], g.step > 0, g.PastOf(b))
    }

    /** The batched step is the solo step, row by row. */
    ghost predicate Runs(run: Session) {
      forall g: Gen :: g.Valid() && run(g.Inputs()).Some? ==>
        var output := run(g.Inputs()).value;
        && |output.logits| == |g.rows| && |output.cache| == CACHES
        && (forall b :: 0 <= b < |g.rows| ==> output.logits[b] == logits(Input(g, b)))
        && (forall i :: 0 <= i < CACHES ==> (output.cache[i].Some? <==> emits(g.step > 0, i)))
        && (forall i :: 0 <= i < CACHES && output.cache[i].Some? ==>
              && |output.cache[i].value| == |g.rows|
              && forall b :: 0 <= b < |g.rows| ==>
                   output.cache[i].value[b] == present(Input(g, b), i))
    }

    /** The selected branch emits every tensor that is still to be computed. */
    predicate EmitsAll(cached: bool) {
      forall i: nat :: i < CACHES && !(cached && CrossAttention(i)) ==> emits(cached, i)
    }

    /** The KV tensors of one row after a step. */
    function NextPast(input: RowInput, past: seq<CacheRow>, step: nat): (r: seq<CacheRow>)
      requires |past| == CACHES
      ensures |r| == CACHES
      ensures forall i :: 0 <= i < CACHES ==>
                r[i] == if step > 0 && CrossAttention(i) then past[i] else present(input, i)
    {
      seq(CACHES, i requires 0 <= i < CACHES =>
        if step > 0 && CrossAttention(i) then past[i] else present(input, i))
    }

    /** Greedy decoding of one crop: first maximum on ties, stop at EOS, at most
     *  `MAX_LENGTH` tokens including BOS. Returns the tokens and whether they end. */
    function Greedy(hidden: Hidden, tokens: seq<nat>, last: int, past: seq<CacheRow>, step: nat):
      Result<(seq<nat>, bool), Error>
      requires |past| == CACHES
      decreases MAX_LENGTH - |tokens|
    {
      if |tokens| >= MAX_LENGTH then Success((tokens, false))
      else
        var input := RowInput(last, hidden, step > 0, past);
        var row := logits(input);
        if |row| != VOCAB_SIZE then Failure(BadShape)
        else if !Finite(row) then Failure(NonFinite)
        else
          var best := FirstMax(row);
          if best == EOS then Success((tokens + [best], true))
          else if !EmitsAll(step > 0) then Failure(MissingCache)
          else Greedy(hidden, tokens + [best], best, NextPast(input, past, step), step + 1)
    }

    /** One crop decoded alone. */
    function Solo(hidden: Hidden): Result<(seq<nat>, bool), Error> {
      Greedy(hidden, [0], 0, seq(CACHES, _ => EMPTY_ROW), 0)
    }
  }

  /** Which KV tensors a step replaces: at the first step all eight, and afterwards the
   *  self-attention of both layers; the cross-attention tensors stay as they were. */
  lemma CachesAfterAdvance(g: Gen, output: StepOutput)
    requires |g.cache| == CACHES && Advance(g, output).Success? && !Advance(g, output).value.1
    ensures var next := Advance(g, output).value.0;
            && |next.cache| == |output.cache| == 8 && next.step == g.step + 1 && next.hidden == g.hidden
            && (g.step == 0 ==> forall i :: 0 <= i < 8 ==> output.cache[i] == Some(next.cache[i]))
            && (g.step > 0 ==>
                  && (forall i :: i in {0, 1, 4, 5} ==> output.cache[i] == Some(next.cache[i]))
                  && forall i :: i in {2, 3, 6, 7} ==> next.cache[i] == g.cache[i])
  {
  }

  /** Rows after a step: a finished one keeps its tokens, stays finished and feeds the
   *  padding token, and a running one gets one more token, which is also its next input
   *  and finishes the row exactly when it is the end token. */
  lemma RowsAfterAdvance(g: Gen, output: StepOutput, b: nat)
    requires Advance(g, output).Success? && b < |g.rows|
    ensures var before, rows := g.rows[b], Advance(g, output).value.0.rows;
            && |rows| == |g.rows|
            && (before.finished ==> rows[b] == Row(before.tokens, 1, true))
            && (!before.finished ==>
                  && |rows[b].tokens| == |before.tokens| + 1 && before.tokens <= rows[b].tokens
                  && rows[b].next == rows[b].tokens[|before.tokens|]
                  && (rows[b].finished <==> rows[b].next == 2))
  {
  }

  /** Where the solo run of row `b` stands after `k - 1` iterations of the batch:
   *  it is over with these tokens, or it goes on from this row's state. */
  ghost predicate Tracks(net: Net, g: Gen, b: nat, k: nat, solo: Result<(seq<nat>, bool), Error>)
    requires g.Valid() && b < |g.rows|
  {
    var row := g.rows[b];
    if row.finished then solo == Success((row.tokens, true))
    else
      && |row.tokens| == k
      && solo == net.Greedy(g.hidden[b], row.tokens, row.next, g.PastOf(b), g.step)
  }

  lemma PastAdvances(net: Net, run: Session, g: Gen, b: nat)
    requires g.Valid() && b < |g.rows| && net.Runs(run)
    requires Iterate(run, g).Success? && !Iterate(run, g).value.1
    ensures net.EmitsAll(g.step > 0)
    ensures var next := Iterate(run, g).value.0;
            && next.Valid() && |next.rows| == |g.rows|
            && next.PastOf(b) == net.NextPast(net.Input(g, b), g.PastOf(b), g.step)
  {
    var output := run(g.Inputs()).value;
    var next := Iterate(run, g).value.0;
    CachesAfterAdvance(g, output);
    var cached := g.step > 0;
    forall i: nat | i < CACHES && !(cached && CrossAttention(i)) ensures net.emits(cached, i) {
      if cached { assert i in {0, 1, 4, 5}; }
      assert output.cache[i].Some?;
    }
    assert net.EmitsAll(g.step > 0);
    assert forall i :: 0 <= i < CACHES && g.step > 0 && CrossAttention(i) ==> next.cache[i] == g.cache[i];
    assert forall i :: 0 <= i < CACHES ==> |next.cache[i]| == |g.rows|;
    var past := net.NextPast(net.Input(g, b), g.PastOf(b), g.step);
    forall i | 0 <= i < CACHES ensures next.PastOf(b)[i] == past[i] {
    }
  }

  /** One advance of the batch is one advance of every unfinished row. */
  lemma AdvanceTracks(net: Net, run: Session, g: Gen, b: nat, k: nat,
                      solo: Result<(seq<nat>, bool), Error>)
    requires g.Valid() && b < |g.rows| && net.Runs(run)
    requires k < MAX_LENGTH && Tracks(net, g, b, k, solo)
    requires Iterate(run, g).Success?
    ensures var (next, done) := Iterate(run, g).value;
            && next.Valid() && |next.rows| == |g.rows| && next.hidden == g.hidden
            && (done ==> next.rows[b].finished && Tracks(net, next, b, k + 1, solo))
            && (!done ==> Tracks(net, next, b, k + 1, solo))
  {
    var output := run(g.Inputs()).value;
    var (next, done) := Iterate(run, g).value;
    var input := net.Input(g, b);
    assert output.logits[b] == net.logits(input);
    assert Success(next.rows[b]) == AdvanceRow(g.rows[b], output.logits[b]);
    if !done {
      PastAdvances(net, run, g, b);
    }
  }

  /** One turn of the loop: the second look, the decoder run and the advance. */
  ghost predicate Turn(run: Session, gone: Gone, inv: (Gen, nat) -> bool, g: Gen, k: nat)
    requires g.Valid()
  {
    var h := CancelAll(g, Looks(gone, 2 * k + 1, |g.rows|));
    && inv(h, k)
    && (Iterate(run, h).Success? ==> Iterate(run, h).value.0.Valid() && inv(Iterate(run, h).value.0, k + 1))
  }

  ghost predicate Kept(run: Session, gone: Gone, inv: (Gen, nat) -> bool) {
    forall g: Gen, k: nat {:trigger Turn(run, gone, inv, g, k)} ::
      k < MAX_LENGTH && g.Valid() && inv(g, k) ==> Turn(run, gone, inv, g, k)
  }

  lemma IterateDone(run: Session, g: Gen)
    requires |g.cache| == CACHES && Iterate(run, g).Success? && Iterate(run, g).value.1
    ensures Iterate(run, g).value.0.AllFinished()
  {
  }

  /** Where the loop stands after one turn. */
  lemma LoopTurns(run: Session, g: Gen, gone: Gone, k: nat)
    requires |g.cache| == CACHES && k < MAX_LENGTH && Loop(run, g, gone, k).Success?
    ensures var h := CancelAll(g, Looks(gone, 2 * k + 1, |g.rows|));
            && (h.AllFinished() ==> Loop(run, g, gone, k) == Success(h))
            && (!h.AllFinished() ==>
                  && Iterate(run, h).Success?
                  && var (next, done) := Iterate(run, h).value;
                     Loop(run, g, gone, k) == if done then Success(next) else Loop(run, next, gone, k + 1))
  {
  }

  /** What every turn keeps holds of the result, where all rows are finished or the
   *  iterations are used up. */
  lemma {:induction false} LoopKeeps(run: Session, g: Gen, gone: Gone, k: nat, inv: (Gen, nat) -> bool)
    returns (n: nat)
    requires k <= MAX_LENGTH && g.Valid() && inv(g, k) && Kept(run, gone, inv)
    requires Loop(run, g, gone, k).Success?
    ensures var final := Loop(run, g, gone, k).value;
            k <= n <= MAX_LENGTH && inv(final, n) && (final.AllFinished() || n == MAX_LENGTH)
    decreases MAX_LENGTH - k
  {
    if k == MAX_LENGTH {
      n := k;
    } else {
      assert Turn(run, gone, inv, g, k);
      LoopTurns(run, g, gone, k);
      var h := CancelAll(g, Looks(gone, 2 * k + 1, |g.rows|));
      if h.AllFinished() {
        n := k;
      } else if Iterate(run, h).value.1 {
        IterateDone(run, h);
        n := k + 1;
      } else {
        n := LoopKeeps(run, Iterate(run, h).value.0, gone, k + 1, inv);
      }
    }
  }

  /** Row `b` of the `n` rows tracks its solo run. */
  ghost function Tracking(net: Net, b: nat, n: nat, solo: Result<(seq<nat>, bool), Error>): (Gen, nat) -> bool
    requires b < n
  {
    (g: Gen, k: nat) => |g.rows| == n && g.Valid() && Tracks(net, g, b, k, solo)
  }

  lemma TrackingIsKept(net: Net, run: Session, gone: Gone, b: nat, n: nat, solo: Result<(seq<nat>, bool), Error>)
    requires b < n && net.Runs(run) && forall t :: !gone(t, b)
    ensures Kept(run, gone, Tracking(net, b, n, solo))
  {
    var inv := Tracking(net, b, n, solo);
    forall g: Gen, k: nat | k < MAX_LENGTH && g.Valid() && inv(g, k) ensures Turn(run, gone, inv, g, k) {
      var h := CancelAll(g, Looks(gone, 2 * k + 1, |g.rows|));
      StaysTracked(net, g, h, b, k, solo);
      if Iterate(run, h).Success? {
        AdvanceTracks(net, run, h, b, k, solo);
      }
    }
  }

  lemma StaysTracked(net: Net, g: Gen, h: Gen, b: nat, k: nat, solo: Result<(seq<nat>, bool), Error>)
    requires g.Valid() && h.Valid() && b < |g.rows| == |h.rows| && Tracks(net, g, b, k, solo)
    requires h.rows[b] == g.rows[b] && h.hidden == g.hidden && h.cache == g.cache && h.step == g.step
    ensures Tracks(net, h, b, k, solo)
  {
    assert h.PastOf(b) == g.PastOf(b);
  }

  lemma TrackedToTheEnd(net: Net, g: Gen, b: nat, k: nat, solo: Result<(seq<nat>, bool), Error>)
    requires g.Valid() && b < |g.rows| && Tracks(net, g, b, k, solo)
    requires g.rows[b].finished || k == MAX_LENGTH
    ensures solo == Success((g.rows[b].tokens, g.rows[b].finished))
  {
  }

  /** Whenever the shared loop returns, every row whose caller stayed ends with
   *  exactly the tokens and the verdict of decoding that crop alone, however many
   *  peers finished early, were cancelled or hit the cap. */
  lemma BatchRefinesSolo(net: Net, run: Session, hidden: seq<Hidden>, gone: Gone, b: nat)
    requires b < |hidden| && net.Runs(run)
    requires Loop(run, NewGen(hidden), gone, 1).Success?
    requires forall t :: !gone(t, b)
    ensures var final := Loop(run, NewGen(hidden), gone, 1).value;
            && |final.rows| == |hidden|
            && net.Solo(hidden[b]) == Success((final.rows[b].tokens, final.rows[b].finished))
  {
    var g := NewGen(hidden);
    assert g.PastOf(b) == seq(CACHES, _ => EMPTY_ROW);
    var solo := net.Solo(hidden[b]);
    TrackingIsKept(net, run, gone, b, |hidden|, solo);
    assert Tracking(net, b, |hidden|, solo)(g, 1);
    var n := LoopKeeps(run, g, gone, 1, Tracking(net, b, |hidden|, solo));
    TrackedToTheEnd(net, Loop(run, g, gone, 1).value, b, n, solo);
  }

  /** A greedy run is bounded, finishes only by emitting EOS, and gives up only at the cap. */
  lemma {:induction false} GreedyIsBounded(net: Net, hidden: Hidden, tokens: seq<nat>, last: int,
                                          past: seq<CacheRow>, step: nat)
    requires |past| == CACHES && 1 <= |tokens| <= MAX_LENGTH
    ensures var r := net.Greedy(hidden, tokens, last, past, step);
            r.Success? ==>
              && tokens <= r.value.0 && |r.value.0| <= 1024
              && (forall i :: |tokens| <= i < |r.value.0| - 1 ==> r.value.0[i] != 2)
              && (if r.value.1 then |r.value.0| > |tokens| && r.value.0[|r.value.0| - 1] == 2
                  else |r.value.0| == 1024 && forall i :: |tokens| <= i < 1024 ==> r.value.0[i] != 2)
    decreases MAX_LENGTH - |tokens|
  {
    if |tokens| < MAX_LENGTH {
      var input := RowInput(last, hidden, step > 0, past);
      var row := net.logits(input);
      if |row| == VOCAB_SIZE && Finite(row) && FirstMax(row) != EOS {
        GreedyIsBounded(net, hidden, tokens + [FirstMax(row)], FirstMax(row),
                        net.NextPast(input, past, step), step + 1);
      }
    }
  }

  /** What a caller who stayed is told: the text of all tokens of its own decoding when that
   *  ends, with its only end token last; and that the text is truncated exactly when the
   *  own decoding fills 1024 tokens without an end token. */
  lemma NoTruncatedReading(net: Net, run: Session, hidden: seq<Hidden>, gone: Gone, b: nat,
                           text: seq<nat> -> Option<string>)
    requires b < |hidden| && net.Runs(run)
    requires Loop(run, NewGen(hidden), gone, 1).Success?
    requires forall t :: !gone(t, b)
    ensures net.Solo(hidden[b]).Success?
    ensures var (tokens, ends) := net.Solo(hidden[b]).value;
            var readings := Readings(Loop(run, NewGen(hidden), gone, 1).value, text);
            && |readings| == |hidden|
            && (readings[b] == Truncated <==> 2 !in tokens)
            && (readings[b] == Truncated <==> |tokens| == 1024 && tokens[1023] != 2)
            && (2 in tokens ==>
                  && tokens[|tokens| - 1] == 2 && 2 !in tokens[..|tokens| - 1]
                  && readings[b] == if text(tokens).None? then TokenizerFailed else Latex(text(tokens).value))
  {
    BatchRefinesSolo(net, run, hidden, gone, b);
    GreedyIsBounded(net, hidden[b], [0], 0, seq(CACHES, _ => EMPTY_ROW), 0);
    var tokens := net.Solo(hidden[b]).value.0;
    assert tokens[0] == [0][0];
  }

  /** A decoder without malformed outputs, on a session that does not fail. */
  ghost predicate Healthy(net: Net, run: Session) {
    && net.Runs(run)
    && (forall g: Gen :: g.Valid() ==> run(g.Inputs()).Some?)
    && (forall input :: |net.logits(input)| == VOCAB_SIZE && Finite(net.logits(input)))
    && (forall i :: 0 <= i < CACHES ==> net.emits(false, i))
    && (forall i :: 0 <= i < CACHES && i % 4 < 2 ==> net.emits(true, i))
  }

  lemma HealthyAdvances(net: Net, run: Session, g: Gen)
    requires Healthy(net, run) && g.Valid()
    ensures Iterate(run, g).Success?
    ensures var (next, done) := Iterate(run, g).value;
            next.Valid() && |next.rows| == |g.rows|
  {
    var output := run(g.Inputs()).value;
    forall b | 0 <= b < |g.rows| ensures AdvanceRow(g.rows[b], output.logits[b]).Success? {
      assert output.logits[b] == net.logits(net.Input(g, b));
    }
    forall i | 0 <= i < CACHES && !Retained(g.step, i) ensures output.cache[i].Some? {
      assert net.emits(g.step > 0, i);
    }
  }

  /** At some look from iteration `k` on, every caller of the batch is gone. */
  ghost predicate AllGone(gone: Gone, k: nat, batch: nat) {
    exists t :: k <= t < MAX_LENGTH && All(Looks(gone, 2 * t, batch))
  }

  lemma LoopCancels(run: Session, g: Gen, gone: Gone, k: nat)
    requires |g.cache| == CACHES && k < MAX_LENGTH && All(Looks(gone, 2 * k, |g.rows|))
    ensures Loop(run, g, gone, k) == Failure(Canceled) && AllGone(gone, k, |g.rows|)
  {
  }

  /** A turn whose decoder run succeeds fails only through a later one. */
  lemma LoopFailsLater(run: Session, g: Gen, gone: Gone, k: nat)
    requires |g.cache| == CACHES && k < MAX_LENGTH && Loop(run, g, gone, k).Failure?
    requires !All(Looks(gone, 2 * k, |g.rows|))
    requires Iterate(run, CancelAll(g, Looks(gone, 2 * k + 1, |g.rows|))).Success?
    ensures var next := Iterate(run, CancelAll(g, Looks(gone, 2 * k + 1, |g.rows|))).value.0;
            Loop(run, g, gone, k) == Loop(run, next, gone, k + 1)
  {
  }

  /** Peers cannot fail a batch: a healthy decoder's loop fails only when every
   *  caller of the batch is seen to be gone at once. */
  lemma {:induction false} FailsOnlyWhenAllGone(net: Net, run: Session, g: Gen, gone: Gone, k: nat)
    requires Healthy(net, run) && g.Valid() && Loop(run, g, gone, k).Failure?
    ensures Loop(run, g, gone, k).error == Canceled && AllGone(gone, k, |g.rows|)
    decreases MAX_LENGTH - k
  {
    if All(Looks(gone, 2 * k, |g.rows|)) {
      LoopCancels(run, g, gone, k);
    } else {
      var h := CancelAll(g, Looks(gone, 2 * k + 1, |g.rows|));
      HealthyAdvances(net, run, h);
      LoopFailsLater(run, g, gone, k);
      FailsOnlyWhenAllGone(net, run, Iterate(run, h).value.0, gone, k + 1);
    }
  }

  // ----- the browser's loop -----

  /** Native looks that see what the browser's single look sees. */
  function Double(gone: Gone): Gone {
    (t: nat, b: nat) => gone(t / 2, b)
  }

  lemma DoubleLooks(gone: Gone, k: nat, n: nat)
    ensures Looks(Double(gone), 2 * k, n) == Looks(gone, k, n)
    ensures Looks(Double(gone), 2 * k + 1, n) == Looks(gone, k, n)
  {
  }

  lemma AllGoneFinishes(g: Gen, looks: seq<bool>)
    requires |looks| == |g.rows| && All(looks)
    ensures CancelAll(g, looks).AllFinished()
  {
  }

  /** Some iteration finds no running row although not every caller is gone. */
  ghost predicate Stranded(run: Session, g: Gen, gone: Gone, k: nat)
    requires |g.cache| == CACHES
    decreases MAX_LENGTH - k
  {
    k < MAX_LENGTH &&
    var h := CancelAll(g, Looks(gone, k, |g.rows|));
    if h.AllFinished() then !All(Looks(gone, k, |g.rows|))
    else
      && Iterate(run, h).Success?
      && !Iterate(run, h).value.1
      && Stranded(run, Iterate(run, h).value.0, gone, k + 1)
  }

  /** The browser's loop agrees with the native one except in one case: when the
   *  last running row is cancelled while a finished peer still waits, the native
   *  loop keeps the peer's text and the browser fails the whole batch. */
  lemma {:induction false} BrowserAgreesIff(run: Session, g: Gen, gone: Gone, k: nat)
    requires |g.cache| == CACHES
    ensures BrowserLoop(run, g, gone, k) == Loop(run, g, Double(gone), k) <==> !Stranded(run, g, gone, k)
    ensures Stranded(run, g, gone, k) ==>
              BrowserLoop(run, g, gone, k) == Failure(Canceled) && Loop(run, g, Double(gone), k).Success?
    decreases MAX_LENGTH - k
  {
    if k < MAX_LENGTH {
      var n := |g.rows|;
      DoubleLooks(gone, k, n);
      var h := CancelAll(g, Looks(gone, k, n));
      if All(Looks(gone, k, n)) { AllGoneFinishes(g, Looks(gone, k, n)); }
      if !h.AllFinished() && Iterate(run, h).Success? && !Iterate(run, h).value.1 {
        BrowserAgreesIff(run, Iterate(run, h).value.0, gone, k + 1);
      }
    }
  }

  /** The greatest logit is the one of `best`. */
  function Spike(best: nat): (l: seq<Logit>)
    ensures |l| == VOCAB_SIZE && Finite(l)
    ensures best < VOCAB_SIZE ==> FirstMax(l) == best
  {
    var l := seq(VOCAB_SIZE, i => Some(if i == best then 1.0 else 0.0));
    assert best < VOCAB_SIZE ==> l[best].value == 1.0;
    l
  }

  /** A decoder that ends the crop with hidden state 0 at once and goes on with others. */
  const SHORT_OR_LONG: Net :=
    Net((input: RowInput) => Spike(if input.hidden == 0 then EOS else 3), (_, _) => EMPTY_ROW, (_, _) => true)

  const TWO_CROPS: Session := (inputs: seq<Value>) =>
    if |inputs| > 1 && inputs[1].Features?
    then Some(StepOutput(Spikes(inputs[1].features), seq(CACHES, _ => Some(EmptyCache(|inputs[1].features|)))))
    else None

  function Spikes(hidden: seq<Hidden>): (l: seq<seq<Logit>>)
    ensures |l| == |hidden|
    ensures forall b :: 0 <= b < |l| ==> l[b] == Spike(if hidden[b] == 0 then EOS else 3)
  {
    seq(|hidden|, b requires 0 <= b < |hidden| => Spike(if hidden[b] == 0 then EOS else 3))
  }

  /** The second caller is gone from the second iteration on. */
  const LEAVES_AT_TWO: Gone := (t: nat, b: nat) => b == 1 && t >= 2

  lemma TwoCropsHealthy()
    ensures Healthy(SHORT_OR_LONG, TWO_CROPS)
  {
    forall g: Gen | g.Valid() && TWO_CROPS(g.Inputs()).Some?
      ensures var output := TWO_CROPS(g.Inputs()).value;
              && |output.logits| == |g.rows| && |output.cache| == CACHES
              && (forall b :: 0 <= b < |g.rows| ==> output.logits[b] == SHORT_OR_LONG.logits(SHORT_OR_LONG.Input(g, b)))
              && forall i :: 0 <= i < CACHES ==> output.cache[i] == Some(EmptyCache(|g.rows|))
    {
      assert g.Inputs()[1] == Features(g.hidden);
    }
  }

  lemma TwoCropsAdvance(g: Gen)
    requires g.Valid() && g.hidden == [0, 1] && g.step == 0
    requires g.rows == [Row([0], 0, false), Row([0], 0, false)]
    ensures Iterate(TWO_CROPS, g).Success? && !Iterate(TWO_CROPS, g).value.1
    ensures var next := Iterate(TWO_CROPS, g).value.0;
            next.rows == [Row([0, EOS], EOS, true), Row([0, 3], 3, false)] && |next.cache| == CACHES
  {
    assert g.Inputs()[1] == Features(g.hidden);
    var output := TWO_CROPS(g.Inputs()).value;
    assert output.logits == [Spike(EOS), Spike(3)];
    TwoRowsAdvance(g.rows, output.logits);
    assert !AdvanceRows(g.rows, output.logits).value[1].finished;
  }

  lemma TwoRowsAdvance(rows: seq<Row>, logits: seq<seq<Logit>>)
    requires rows == [Row([0], 0, false), Row([0], 0, false)] && logits == [Spike(EOS), Spike(3)]
    ensures AdvanceRows(rows, logits) == Success([Row([0, EOS], EOS, true), Row([0, 3], 3, false)])
  {
    assert [0] + [EOS] == [0, EOS] && [0] + [3] == [0, 3];
    assert AdvanceRow(rows[0], logits[0]) == Success(Row([0, EOS], EOS, true));
    assert AdvanceRow(rows[1], logits[1]) == Success(Row([0, 3], 3, false));
    var r := AdvanceRows(rows, logits);
    assert r.Success?;
    assert r.value == [Row([0, EOS], EOS, true), Row([0, 3], 3, false)];
  }

  /** Two crops on a healthy decoder: the first is finished after one step, and then the
   *  second caller leaves. The native loop returns the first crop's text, the browser
   *  fails both. */
  lemma BrowserLosesFinishedPeer()
    ensures Healthy(SHORT_OR_LONG, TWO_CROPS)
    ensures Stranded(TWO_CROPS, NewGen([0, 1]), LEAVES_AT_TWO, 1)
    ensures BrowserLoop(TWO_CROPS, NewGen([0, 1]), LEAVES_AT_TWO, 1) == Failure(Canceled)
    ensures var native := Loop(TWO_CROPS, NewGen([0, 1]), Double(LEAVES_AT_TWO), 1);
            native.Success? && |native.value.rows| == 2 && native.value.rows[0] == Row([0, EOS], EOS, true)
  {
    TwoCropsHealthy();
    var g := NewGen([0, 1]);
    var h := CancelAll(g, Looks(LEAVES_AT_TWO, 1, 2));
    assert h.rows == [Row([0], 0, false), Row([0], 0, false)] == g.rows;
    assert h == g;
    TwoCropsAdvance(g);
    StrandedAtTwo(Iterate(TWO_CROPS, g).value.0);
    OneTurn(g);
  }

  lemma StrandedAtTwo(next: Gen)
    requires |next.cache| == CACHES && next.rows == [Row([0, EOS], EOS, true), Row([0, 3], 3, false)]
    ensures Stranded(TWO_CROPS, next, LEAVES_AT_TWO, 2)
    ensures BrowserLoop(TWO_CROPS, next, LEAVES_AT_TWO, 2) == Failure(Canceled)
    ensures var native := Loop(TWO_CROPS, next, Double(LEAVES_AT_TWO), 2);
            native.Success? && |native.value.rows| == 2 && native.value.rows[0] == next.rows[0]
  {
    var looks := Looks(LEAVES_AT_TWO, 2, 2);
    assert looks == [false, true];
    DoubleLooks(LEAVES_AT_TWO, 2, 2);
    var h := CancelAll(next, looks);
    assert h.rows[0] == next.rows[0] && h.rows[1].finished;
  }

  lemma OneTurn(g: Gen)
    requires |g.cache| == CACHES && |g.rows| == 2 && !g.AllFinished()
    requires CancelAll(g, Looks(LEAVES_AT_TWO, 1, 2)) == g
    requires Iterate(TWO_CROPS, g).Success? && !Iterate(TWO_CROPS, g).value.1
    ensures var next := Iterate(TWO_CROPS, g).value.0;
            && Stranded(TWO_CROPS, g, LEAVES_AT_TWO, 1) == Stranded(TWO_CROPS, next, LEAVES_AT_TWO, 2)
            && BrowserLoop(TWO_CROPS, g, LEAVES_AT_TWO, 1) == BrowserLoop(TWO_CROPS, next, LEAVES_AT_TWO, 2)
            && Loop(TWO_CROPS, g, Double(LEAVES_AT_TWO), 1) == Loop(TWO_CROPS, next, Double(LEAVES_AT_TWO), 2)
  {
    DoubleLooks(LEAVES_AT_TWO, 1, 2);
    assert !Looks(LEAVES_AT_TWO, 1, 2)[0];
  }

  /** What the browser does return is decoding one crop at a time. */
  lemma BrowserRefinesSolo(net: Net, run: Session, hidden: seq<Hidden>, gone: Gone, b: nat)
    requires b < |hidden| && net.Runs(run)
    requires BrowserLoop(run, NewGen(hidden), gone, 1).Success?
    requires forall t :: !gone(t, b)
    ensures var final := BrowserLoop(run, NewGen(hidden), gone, 1).value;
            && |final.rows| == |hidden|
            && net.Solo(hidden[b]) == Success((final.rows[b].tokens, final.rows[b].finished))
  {
    BrowserAgreesIff(run, NewGen(hidden), gone, 1);
    BatchRefinesSolo(net, run, hidden, Double(gone), b);
  }
}
