/** Batched greedy decoding of crates/formula-texo/src/model.rs, as values.
 *
 *  Tensors are modelled by their rows, one per crop of the batch. The decoder
 *  graph is foreign code: a function from its eleven named inputs to its
 *  outputs. Logits are reals; `None` stands for a NaN or an infinity.
 */
module Decoding {
  import opened Wrappers

  const MAX_LENGTH: nat := 1024
  const VOCAB_SIZE: nat := 687
  const EOS: nat := 2
  const CACHES: nat := 8

  type Hidden = int
  type CacheRow = int
  type Logit = Option<real>

  /** One decoder input, named by its slot in the canonical order. */
  datatype Value =
    | Ids(ids: seq<int>)
    | Features(features: seq<Hidden>)
    | Flag(flag: bool)
    | Past(rows: seq<CacheRow>)

  /** `StepOutput`: the logits of every row and the KV tensors the branch produced. */
  datatype StepOutput = StepOutput(logits: seq<seq<Logit>>, cache: seq<Option<seq<CacheRow>>>)

  /** The fields of `Generation` that belong to one row. */
  datatype Row = Row(tokens: seq<nat>, next: int, finished: bool)

  datatype Gen = Gen(hidden: seq<Hidden>, cache: seq<seq<CacheRow>>, rows: seq<Row>, step: nat)
  {
    predicate Valid() {
      && |hidden| == |rows| && |cache| == CACHES
      && forall i :: 0 <= i < CACHES ==> |cache[i]| == |rows|
    }

    predicate AllFinished() {
      forall b :: 0 <= b < |rows| ==> rows[b].finished
    }

    /** The eleven inputs in canonical order: token ids, features, cache flag, caches. */
    function Inputs(): (r: seq<Value>)
      requires |cache| == CACHES
      ensures |r| == 3 + CACHES
    {
      [Ids(seq(|rows|, b requires 0 <= b < |rows| => rows[b].next)), Features(hidden), Flag(step > 0)]
      + seq(CACHES, i requires 0 <= i < CACHES => Past(cache[i]))
    }

    /** The KV tensors of one row. */
    function PastOf(b: nat): (r: seq<CacheRow>)
      requires Valid() && b < |rows|
      ensures |r| == CACHES
    {
      seq(CACHES, i requires 0 <= i < CACHES => cache[i][b])
    }
  }

  datatype Error = BadShape | NonFinite | MissingCache | Canceled | SessionFailed

  type Session = seq<Value> -> Option<StepOutput>

  /** What an empty KV tensor holds for one crop. */
  const EMPTY_ROW: CacheRow := 0

  function EmptyCache(batch: nat): seq<CacheRow> {
    seq(batch, _ => EMPTY_ROW)
  }

  function NewGen(hidden: seq<Hidden>): (g: Gen)
    ensures g.Valid()
  {
    Gen(hidden, seq(CACHES, _ => EmptyCache(|hidden|)), seq(|hidden|, _ => Row([0], 0, false)), 0)
  }

  predicate Finite(logits: seq<Logit>) {
    forall i :: 0 <= i < |logits| ==> logits[i].Some?
  }

  /** `r` is the first position of the greatest logit. */
  ghost predicate IsFirstMax(logits: seq<Logit>, r: nat)
    requires Finite(logits)
  {
    && r < |logits|
    && (forall i :: 0 <= i < |logits| ==> logits[i].value <= logits[r].value)
    && (forall i :: 0 <= i < r ==> logits[i].value < logits[r].value)
  }

  function FirstMax(logits: seq<Logit>): (r: nat)
    requires Finite(logits) && logits != []
    ensures IsFirstMax(logits, r)
  {
    if |logits| == 1 then 0
    else
      var n := |logits| - 1;
      var best := FirstMax(logits[..n]);
      if logits[n].value > logits[best].value then n else best
  }

  function CancelRow(row: Row, cancelled: bool): Row {
    if cancelled then row.(finished := true, next := 1) else row
  }

  function CancelAll(g: Gen, cancelled: seq<bool>): Gen
    requires |cancelled| == |g.rows|
  {
    g.(rows := seq(|g.rows|, b requires 0 <= b < |g.rows| => CancelRow(g.rows[b], cancelled[b])))
  }

  function AdvanceRow(row: Row, logits: seq<Logit>): (r: Result<Row, Error>)
    requires |logits| == VOCAB_SIZE
  {
    if row.finished then Success(row.(next := 1))
    else if !Finite(logits) then Failure(NonFinite)
    else
      var best := FirstMax(logits);
      Success(Row(row.tokens + [best], best, best == EOS))
  }

  /** All rows advance, or the first failing one fails the batch. */
  function AdvanceRows(rows: seq<Row>, logits: seq<seq<Logit>>): (r: Result<seq<Row>, Error>)
    requires |rows| == |logits|
    requires forall b :: 0 <= b < |logits| ==> |logits[b]| == VOCAB_SIZE
    ensures r.Success? ==> |r.value| == |rows|
    ensures r.Success? <==> forall b :: 0 <= b < |rows| ==> AdvanceRow(rows[b], logits[b]).Success?
    ensures r.Success? ==>
              forall b :: 0 <= b < |rows| ==> Success(r.value[b]) == AdvanceRow(rows[b], logits[b])
    ensures r.Failure? ==> r.error == NonFinite
  {
    if rows == [] then Success([])
    else
      var n := |rows| - 1;
      match AdvanceRows(rows[..n], logits[..n])
      case Failure(e) => Failure(e)
      case Success(done) =>
        match AdvanceRow(rows[n], logits[n])
        case Failure(e) => Failure(e)
        case Success(row) => Success(done + [row])
  }

  /** Cached branches emit no cross-attention values; the first step's stay. */
  predicate Retained(step: nat, index: nat) {
    step > 0 && index % 4 >= 2
  }

  function AdvanceCache(step: nat, cache: seq<seq<CacheRow>>, output: seq<Option<seq<CacheRow>>>):
    (r: Result<seq<seq<CacheRow>>, Error>)
    requires |output| == |cache|
    ensures r.Success? ==> |r.value| == |cache|
    ensures r.Success? <==>
              forall i :: 0 <= i < |cache| && !Retained(step, i) ==> output[i].Some?
    ensures r.Success? ==> forall i :: 0 <= i < |cache| ==>
              r.value[i] == if Retained(step, i) then cache[i] else output[i].value
    ensures r.Failure? ==> r.error == MissingCache
  {
    if forall i :: 0 <= i < |cache| && !Retained(step, i) ==> output[i].Some?
    then Success(seq(|cache|, i requires 0 <= i < |cache| =>
           if Retained(step, i) then cache[i] else output[i].value))
    else Failure(MissingCache)
  }

  predicate Shaped(g: Gen, output: StepOutput) {
    && |output.logits| == |g.rows| && |output.cache| == |g.cache|
    && forall b :: 0 <= b < |g.rows| ==> |output.logits[b]| == VOCAB_SIZE
  }

  /** `Generation::advance`: the flag says that every row is finished. */
  function Advance(g: Gen, output: StepOutput): Result<(Gen, bool), Error> {
    if !Shaped(g, output) then Failure(BadShape)
    else
      match AdvanceRows(g.rows, output.logits)
      case Failure(e) => Failure(e)
      case Success(rows) =>
        var h := g.(rows := rows);
        if h.AllFinished() then Success((h, true))
        else
          match AdvanceCache(g.step, g.cache, output.cache)
          case Failure(e) => Failure(e)
          case Success(cache) => Success((h.(cache := cache, step := g.step + 1), false))
  }

  /** One decoder run on the current inputs, and the advance by its outputs. */
  function Iterate(run: Session, g: Gen): (r: Result<(Gen, bool), Error>)
    requires |g.cache| == CACHES
    ensures r.Success? ==> |r.value.0.cache| == CACHES
  {
    match run(g.Inputs())
    case None => Failure(SessionFailed)
    case Some(output) => Advance(g, output)
  }

  /** Whether the caller of row `b` is seen to be gone at the `t`-th look. */
  type Gone = (nat, nat) -> bool

  function Looks(gone: Gone, t: nat, batch: nat): (r: seq<bool>)
    ensures |r| == batch
    ensures forall b :: 0 <= b < batch ==> r[b] == gone(t, b)
  {
    seq(batch, b requires 0 <= b < batch => gone(t, b))
  }

  predicate All(flags: seq<bool>) {
    forall b :: 0 <= b < |flags| ==> flags[b]
  }

  /** The generation loop of the native drivers from iteration `k` on. Callers are
   *  looked at twice per iteration, and may disappear in between. */
  function Loop(run: Session, g: Gen, gone: Gone, k: nat): Result<Gen, Error>
    requires |g.cache| == CACHES
    decreases MAX_LENGTH - k
  {
    if k >= MAX_LENGTH then Success(g)
    else if All(Looks(gone, 2 * k, |g.rows|)) then Failure(Canceled)
    else
      var h := CancelAll(g, Looks(gone, 2 * k + 1, |g.rows|));
      if h.AllFinished() then Success(h)
      else
        match Iterate(run, h)
        case Failure(e) => Failure(e)
        case Success((next, done)) => if done then Success(next) else Loop(run, next, gone, k + 1)
  }

  /** The browser's loop: one look per iteration, and a batch whose last running
   *  row was cancelled is an error. */
  function BrowserLoop(run: Session, g: Gen, gone: Gone, k: nat): Result<Gen, Error>
    requires |g.cache| == CACHES
    decreases MAX_LENGTH - k
  {
    if k >= MAX_LENGTH then Success(g)
    else
      var h := CancelAll(g, Looks(gone, k, |g.rows|));
      if h.AllFinished() then Failure(Canceled)
      else
        match Iterate(run, h)
        case Failure(e) => Failure(e)
        case Success((next, done)) => if done then Success(next) else BrowserLoop(run, next, gone, k + 1)
  }

  // ----- reading the rows -----

  datatype Reading = Latex(text: string) | Truncated | TokenizerFailed

  /** What the callers get for their rows: `text` is the tokenizer's decoding, trimmed. */
  function Readings(g: Gen, text: seq<nat> -> Option<string>): (r: seq<Reading>)
    ensures |r| == |g.rows|
  {
    seq(|g.rows|, b requires 0 <= b < |g.rows| =>
          if !g.rows[b].finished then Truncated
          else
            match text(g.rows[b].tokens)
            case None => TokenizerFailed
            case Some(latex) => Latex(latex))
  }
}
