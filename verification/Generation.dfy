/** The mutable `Generation` of crates/formula-texo/src/model.rs and its three
 *  drivers: plain sessions (session_manager.rs), bound CUDA memory (cuda.rs) and
 *  the browser (wasm_compat.rs). Each is proved equal to its loop in Decoding.dfy,
 *  so all three feed the decoder the same named values at every step.
 */
module Generations {
  import opened Wrappers
  import opened Decoding

  /** The decoder's input names, in the canonical order of `Gen.Inputs`. */
  const NAMES: seq<string> := [
    "input_ids", "encoder_hidden_states", "use_cache_branch",
    "past_key_values.0.decoder.key", "past_key_values.0.decoder.value",
    "past_key_values.0.encoder.key", "past_key_values.0.encoder.value",
    "past_key_values.1.decoder.key", "past_key_values.1.decoder.value",
    "past_key_values.1.encoder.key", "past_key_values.1.encoder.value"]

  const SLOTS: nat := 3 + CACHES

  /** `CACHE_NAMES[i]`. */
  function PastName(i: nat): string
    requires i < CACHES
  {
    NAMES[3 + i]
  }

  lemma NamesAreDistinct()
    ensures |NAMES| == SLOTS
    ensures forall i, j :: 0 <= i < j < SLOTS ==> NAMES[i] != NAMES[j]
    ensures forall i, j :: 0 <= i < j < CACHES ==> PastName(i) != PastName(j)
    ensures forall i, j :: 0 <= i < 3 && 0 <= j < CACHES ==> NAMES[i] != PastName(j)
  {
    assert NAMES[3][18] == 'd' && NAMES[5][18] == 'e' && NAMES[7][18] == 'd' && NAMES[9][18] == 'e';
    assert NAMES[3][16] == NAMES[5][16] == '0' && NAMES[7][16] == NAMES[9][16] == '1';
    assert NAMES[4][18] == 'd' && NAMES[6][18] == 'e' && NAMES[8][18] == 'd' && NAMES[10][18] == 'e';
    assert NAMES[4][16] == NAMES[6][16] == '0' && NAMES[8][16] == NAMES[10][16] == '1';
    assert |NAMES[0]| == 9 && |NAMES[1]| == 21 && |NAMES[2]| == 16;
    assert forall i :: 3 <= i < SLOTS ==> |NAMES[i]| == if i % 2 == 1 then 29 else 31;
  }

  /** The tensors that a later step keeps are the ones named after the encoder. */
  lemma RetainedAreEncoder(step: nat, i: nat)
    requires i < CACHES
    ensures Retained(step, i) <==> step > 0 && |PastName(i)| >= 25 && PastName(i)[18..25] == "encoder"
  {
    assert NAMES[3][18] == 'd' && NAMES[4][18] == 'd' && NAMES[7][18] == 'd' && NAMES[8][18] == 'd';
    assert NAMES[5][18..25] == "encoder" && NAMES[6][18..25] == "encoder";
    assert NAMES[9][18..25] == "encoder" && NAMES[10][18..25] == "encoder";
    if |PastName(i)| >= 25 { assert PastName(i)[18..25][0] == PastName(i)[18]; }
  }

  class Generation {
    const hidden: seq<Hidden>
    var cache: seq<seq<CacheRow>>
    var tokens: seq<seq<nat>>
    var next: seq<int>
    var finished: seq<bool>
    var step: nat

    ghost predicate Valid()
      reads this
    {
      |tokens| == |next| == |finished| == |hidden| && |cache| == CACHES
    }

    function RowAt(b: nat): Row
      requires b < |tokens| && b < |next| && b < |finished|
      reads this
    {
      Row(tokens[b], next[b], finished[b])
    }

    function View(): (g: Gen)
      requires |tokens| == |next| == |finished| == |hidden|
      reads this
      ensures |g.rows| == |hidden|
      ensures forall b :: 0 <= b < |g.rows| ==> g.rows[b] == RowAt(b)
    {
      Gen(hidden, cache, seq(|tokens|, b requires 0 <= b < |tokens| reads this
                                         requires |tokens| == |next| == |finished| => RowAt(b)), step)
    }

    constructor (hidden: seq<Hidden>)
      ensures Valid() && View() == NewGen(hidden)
    {
      this.hidden := hidden;
      cache := seq(CACHES, _ => EmptyCache(|hidden|));
      tokens := seq(|hidden|, _ => [0]);
      next := seq(|hidden|, _ => 0);
      finished := seq(|hidden|, _ => false);
      step := 0;
      new;
      assert View().rows == NewGen(hidden).rows;
    }

    /** Stops the rows whose callers are gone; true when no row runs on. */
    method Cancel(cancelled: seq<bool>) returns (all: bool)
      requires Valid() && |cancelled| == |hidden|
      modifies this
      ensures Valid() && View() == CancelAll(old(View()), cancelled)
      ensures all <==> View().AllFinished()
    {
      all := true;
      for b := 0 to |finished|
        invariant Valid() && cache == old(cache) && step == old(step) && tokens == old(tokens)
        invariant forall i :: 0 <= i < b ==> RowAt(i) == CancelRow(old(RowAt(i)), cancelled[i])
        invariant forall i :: b <= i < |hidden| ==> RowAt(i) == old(RowAt(i))
        invariant all <==> forall i :: 0 <= i < b ==> finished[i]
      {
        ghost var before := finished;
        if cancelled[b] {
          finished := finished[b := true];
          next := next[b := 1];
        }
        all := all && finished[b];
        assert forall i :: 0 <= i < b ==> finished[i] == before[i];
      }
      assert forall b :: 0 <= b < |hidden| ==> View().rows[b].finished == finished[b];
      assert View().rows == CancelAll(old(View()), cancelled).rows;
    }

    /** The first maximum of one row, or `None` when a logit is not finite. */
    static method ArgMax(logits: seq<Logit>) returns (best: Option<nat>)
      requires logits != []
      ensures best.None? <==> !Finite(logits)
      ensures best.Some? ==> best.value == FirstMax(logits)
    {
      var id := 0;
      for n := 0 to |logits|
        invariant Finite(logits[..n])
        invariant n > 0 ==> id < n && id == FirstMax(logits[..n])
        invariant n == 0 ==> id == 0
      {
        if logits[n].None? {
          return None;
        }
        assert logits[..n + 1][..n] == logits[..n];
        if n > 0 && logits[n].value > logits[id].value {
          id := n;
        }
      }
      assert logits[..|logits|] == logits;
      return Some(id);
    }

    /** Greedy predictions for every unfinished row, then the KV tensors that the
     *  selected branch produced. On an error the generation is abandoned. */
    method Advance(output: StepOutput) returns (done: Result<bool, Error>)
      requires Valid()
      modifies this
      ensures match Decoding.Advance(old(View()), output)
              case Failure(e) => done == Failure(e)
              case Success((g, d)) => done == Success(d) && Valid() && View() == g
    {
      ghost var g := View();
      if |output.logits| != |next| || |output.cache| != |cache|
         || exists b :: 0 <= b < |next| && |output.logits[b]| != VOCAB_SIZE {
        return Failure(BadShape);
      }
      for b := 0 to |next|
        invariant Valid() && cache == old(cache) && step == old(step)
        invariant forall i :: 0 <= i < b ==> Success(RowAt(i)) == AdvanceRow(g.rows[i], output.logits[i])
        invariant forall i :: b <= i < |hidden| ==> RowAt(i) == g.rows[i]
      {
        if finished[b] {
          next := next[b := 1];
        } else {
          var best := ArgMax(output.logits[b]);
          if best.None? {
            assert AdvanceRow(g.rows[b], output.logits[b]).Failure?;
            return Failure(NonFinite);
          }
          tokens := tokens[b := tokens[b] + [best.value]];
          next := next[b := best.value];
          finished := finished[b := best.value == EOS];
        }
      }
      ghost var rows := AdvanceRows(g.rows, output.logits).value;
      assert View().rows == rows;
      assert View() == g.(rows := rows);
      assert forall b :: 0 <= b < |hidden| ==> rows[b].finished == finished[b];
      if forall b :: 0 <= b < |finished| ==> finished[b] {
        return Success(true);
      }
      ghost var h := View();
      done := ReplaceCache(output.cache);
      assert View().rows == h.rows;
    }

    method ReplaceCache(output: seq<Option<seq<CacheRow>>>) returns (done: Result<bool, Error>)
      requires Valid() && |output| == CACHES
      modifies this`cache, this`step
      ensures match AdvanceCache(old(step), old(cache), output)
              case Failure(e) => done == Failure(e)
              case Success(c) =>
                done == Success(false) && Valid() && cache == c && step == old(step) + 1
    {
      for index := 0 to CACHES
        invariant |cache| == CACHES && step == old(step)
        invariant forall i :: 0 <= i < index ==> Retained(step, i) || output[i].Some?
        invariant forall i :: 0 <= i < index ==>
                    cache[i] == if Retained(step, i) then old(cache)[i] else output[i].value
        invariant forall i :: index <= i < CACHES ==> cache[i] == old(cache)[i]
      {
        if step > 0 && index % 4 >= 2 {
          continue;
        }
        if output[index].None? {
          return Failure(MissingCache);
        }
        cache := cache[index := output[index].value];
      }
      assert cache == AdvanceCache(old(step), old(cache), output).value;
      step := step + 1;
      return Success(false);
    }
  }

  /** The native loop over a session that is given all inputs at every step. */
  method RecognizeStandard(run: Session, hidden: seq<Hidden>, gone: Gone)
    returns (r: Result<Gen, Error>)
    ensures r == Loop(run, NewGen(hidden), gone, 1)
  {
    var generation := new Generation(hidden);
    for k := 1 to MAX_LENGTH
      invariant fresh(generation) && generation.Valid() && generation.hidden == hidden
      invariant Loop(run, generation.View(), gone, k) == Loop(run, NewGen(hidden), gone, 1)
    {
      if All(Looks(gone, 2 * k, |hidden|)) {
        return Failure(Canceled);
      }
      var stopped := generation.Cancel(Looks(gone, 2 * k + 1, |hidden|));
      if stopped {
        return Success(generation.View());
      }
      var output := run(generation.View().Inputs());
      if output.None? {
        return Failure(SessionFailed);
      }
      var done := generation.Advance(output.value);
      match done
      case Failure(e) => return Failure(e);
      case Success(d) => if d { return Success(generation.View()); }
    }
    return Success(generation.View());
  }

  // ----- CUDA: inputs stay bound between steps -----

  /** What a bound session reads: the value last bound under each name. */
  function Bound(binding: map<string, Value>): (r: seq<Value>)
    requires forall i :: 0 <= i < SLOTS ==> NAMES[i] in binding
  {
    seq(SLOTS, i requires 0 <= i < SLOTS => binding[NAMES[i]])
  }

  /** What the binding still holds when an iteration begins: the features, and
   *  from step 2 on the cross-attention caches bound at step 1. */
  ghost predicate Ready(binding: map<string, Value>, g: Gen) {
    && |g.cache| == CACHES
    && NAMES[1] in binding && binding[NAMES[1]] == Features(g.hidden)
    && (g.step == 0 ==> forall i :: 0 <= i < CACHES ==> g.cache[i] == EmptyCache(|g.rows|))
    && forall i :: 0 <= i < CACHES && i % 4 >= 2 && g.step > 1 ==>
         PastName(i) in binding && binding[PastName(i)] == Past(g.cache[i])
  }

  /** An advance leaves the retained caches, so what was bound stays right. */
  lemma StaysReady(binding: map<string, Value>, g: Gen, output: StepOutput)
    requires |g.cache| == CACHES
    requires NAMES[1] in binding && binding[NAMES[1]] == Features(g.hidden)
    requires forall i :: 0 <= i < CACHES ==>
               PastName(i) in binding && binding[PastName(i)] == Past(g.cache[i])
    requires Decoding.Advance(g, output).Success? && !Decoding.Advance(g, output).value.1
    ensures Ready(binding, Decoding.Advance(g, output).value.0)
  {
  }

  /** Hidden states are bound once and cross-attention caches only at step 1; the
   *  decoder still reads the plain path's inputs at every step. */
  method RecognizeCuda(run: Session, hidden: seq<Hidden>, gone: Gone) returns (r: Result<Gen, Error>)
    ensures r == Loop(run, NewGen(hidden), gone, 1)
  {
    var generation := new Generation(hidden);
    var binding := map[NAMES[1] := Features(hidden)];
    for k := 1 to MAX_LENGTH
      invariant fresh(generation) && generation.Valid() && generation.hidden == hidden
      invariant Loop(run, generation.View(), gone, k) == Loop(run, NewGen(hidden), gone, 1)
      invariant Ready(binding, generation.View())
    {
      if All(Looks(gone, 2 * k, |hidden|)) {
        return Failure(Canceled);
      }
      var stopped := generation.Cancel(Looks(gone, 2 * k + 1, |hidden|));
      if stopped {
        return Success(generation.View());
      }
      ghost var g := generation.View();
      binding := BindStep(generation, binding);
      var output := run(Bound(binding));
      if output.None? {
        return Failure(SessionFailed);
      }
      var done := generation.Advance(output.value);
      match done
      case Failure(e) => return Failure(e);
      case Success(d) =>
        if d { return Success(generation.View()); }
        StaysReady(binding, g, output.value);
    }
    return Success(generation.View());
  }

  /** Binds the token ids, the cache flag, and the caches that changed. */
  method BindStep(generation: Generation, before: map<string, Value>) returns (binding: map<string, Value>)
    requires generation.Valid() && Ready(before, generation.View())
    ensures forall i :: 0 <= i < SLOTS ==> NAMES[i] in binding
    ensures Bound(binding) == generation.View().Inputs()
    ensures binding[NAMES[1]] == Features(generation.hidden)
    ensures forall i :: 0 <= i < CACHES ==>
              PastName(i) in binding && binding[PastName(i)] == Past(generation.cache[i])
  {
    NamesAreDistinct();
    binding := before[NAMES[0] := Ids(generation.next)];
    binding := binding[NAMES[2] := Flag(generation.step > 0)];
    binding := BindCaches(generation.step, |generation.hidden|, generation.cache, binding);
    BoundAll(binding, generation.View(), generation.next);
  }

  lemma BoundAll(binding: map<string, Value>, g: Gen, next: seq<int>)
    requires |g.cache| == CACHES && |next| == |g.rows|
    requires forall b :: 0 <= b < |next| ==> g.rows[b].next == next[b]
    requires NAMES[0] in binding && binding[NAMES[0]] == Ids(next)
    requires NAMES[1] in binding && binding[NAMES[1]] == Features(g.hidden)
    requires NAMES[2] in binding && binding[NAMES[2]] == Flag(g.step > 0)
    requires forall i :: 0 <= i < CACHES ==>
               PastName(i) in binding && binding[PastName(i)] == Past(g.cache[i])
    ensures forall i :: 0 <= i < SLOTS ==> NAMES[i] in binding
    ensures Bound(binding) == g.Inputs()
  {
    forall i | 3 <= i < SLOTS ensures NAMES[i] in binding && binding[NAMES[i]] == Past(g.cache[i - 3]) {
      assert NAMES[i] == PastName(i - 3);
    }
    assert seq(|g.rows|, b requires 0 <= b < |g.rows| => g.rows[b].next) == next;
  }

  /** Rebinds what the previous step changed. */
  method BindCaches(step: nat, batch: nat, cache: seq<seq<CacheRow>>, before: map<string, Value>)
    returns (binding: map<string, Value>)
    requires |cache| == CACHES
    requires step == 0 ==> forall i :: 0 <= i < CACHES ==> cache[i] == EmptyCache(batch)
    requires forall i :: 0 <= i < CACHES && i % 4 >= 2 && step > 1 ==>
               PastName(i) in before && before[PastName(i)] == Past(cache[i])
    ensures forall i :: 0 <= i < CACHES ==>
              PastName(i) in binding && binding[PastName(i)] == Past(cache[i])
    ensures forall i :: 0 <= i < 3 && NAMES[i] in before ==>
              NAMES[i] in binding && binding[NAMES[i]] == before[NAMES[i]]
  {
    NamesAreDistinct();
    binding := before;
    for i := 0 to CACHES
      invariant forall j :: 0 <= j < i ==>
                  PastName(j) in binding && binding[PastName(j)] == Past(cache[j])
      invariant forall j :: i <= j < CACHES && PastName(j) in before ==>
                  PastName(j) in binding && binding[PastName(j)] == before[PastName(j)]
      invariant forall j :: 0 <= j < 3 && NAMES[j] in before ==>
                  NAMES[j] in binding && binding[NAMES[j]] == before[NAMES[j]]
    {
      if step == 0 {
        binding := binding[PastName(i) := Past(EmptyCache(batch))];
      } else if i % 4 < 2 || step == 1 {
        binding := binding[PastName(i) := Past(cache[i])];
      }
    }
  }

  // ----- browser: inputs by position -----

  /** The first slot with this name. */
  method Slot(name: string) returns (slot: Option<nat>)
    ensures slot.Some? ==> slot.value < SLOTS && NAMES[slot.value] == name
    ensures slot.None? ==> forall i :: 0 <= i < SLOTS ==> NAMES[i] != name
  {
    for i := 0 to SLOTS
      invariant forall j :: 0 <= j < i ==> NAMES[j] != name
    {
      if NAMES[i] == name {
        return Some(i);
      }
    }
    return None;
  }

  /** The graph has exactly the canonical inputs, in any order. */
  ghost predicate Complete(outlets: seq<string>) {
    && (forall p :: 0 <= p < |outlets| ==> outlets[p] in NAMES)
    && (forall p, q :: 0 <= p < q < |outlets| ==> outlets[p] != outlets[q])
    && (forall i :: 0 <= i < SLOTS ==> NAMES[i] in outlets)
  }

  /** `order` sends every canonical slot to the position of its name, one to one. */
  ghost predicate IsOrder(outlets: seq<string>, order: seq<nat>) {
    && |order| == |outlets| == SLOTS
    && (forall i :: 0 <= i < SLOTS ==> order[i] < SLOTS && outlets[order[i]] == NAMES[i])
    && (forall i, j :: 0 <= i < j < SLOTS ==> order[i] != order[j])
  }

  lemma {:induction false} SlotSets(filled: set<nat>, n: nat)
    requires forall i :: i in filled ==> i < n
    ensures |filled| <= n
    ensures (forall i :: 0 <= i < n ==> i in filled) ==> |filled| == n
  {
    if n > 0 {
      SlotSets(filled - {n - 1}, n - 1);
      assert n - 1 in filled ==> |filled - {n - 1}| == |filled| - 1;
      assert n - 1 !in filled ==> filled - {n - 1} == filled;
    }
  }

  /** The table after looking at the first `n` inputs of the graph. */
  ghost predicate Resolved(outlets: seq<string>, n: nat, position: seq<Option<nat>>, filled: set<nat>) {
    && |position| == SLOTS && |filled| == n <= |outlets|
    && (forall i: nat :: i in filled <==> i < SLOTS && position[i].Some?)
    && (forall i :: 0 <= i < SLOTS && position[i].Some? ==>
          position[i].value < n && outlets[position[i].value] == NAMES[i])
    && (forall p :: 0 <= p < n ==>
          exists i :: 0 <= i < SLOTS && NAMES[i] == outlets[p] && position[i] == Some(p))
  }

  lemma ResolveOne(outlets: seq<string>, n: nat, position: seq<Option<nat>>, filled: set<nat>, slot: nat)
    requires Resolved(outlets, n, position, filled) && n < |outlets| && slot < SLOTS
    requires NAMES[slot] == outlets[n] && position[slot].None?
    ensures Resolved(outlets, n + 1, position[slot := Some(n)], filled + {slot})
  {
    var after := position[slot := Some(n)];
    forall p | 0 <= p < n + 1
      ensures exists i :: 0 <= i < SLOTS && NAMES[i] == outlets[p] && after[i] == Some(p)
    {
      if p < n {
        var i :| 0 <= i < SLOTS && NAMES[i] == outlets[p] && position[i] == Some(p);
        assert after[i] == Some(p);
      } else {
        assert after[slot] == Some(p);
      }
    }
  }

  /** A full table of a graph is a one-to-one order, and the graph is complete. */
  lemma ResolvedIsOrder(outlets: seq<string>, position: seq<Option<nat>>, filled: set<nat>, order: seq<nat>)
    requires Resolved(outlets, |outlets|, position, filled) && |order| == SLOTS
    requires forall i :: 0 <= i < SLOTS ==> position[i] == Some(order[i])
    ensures Complete(outlets) && IsOrder(outlets, order)
  {
    NamesAreDistinct();
    SlotSets(filled, SLOTS);
    forall i | 0 <= i < SLOTS ensures NAMES[i] in outlets {
      assert outlets[order[i]] == NAMES[i];
    }
  }

  /** A name that is taken, or left over, means that the graph is not complete. */
  lemma Incomplete(outlets: seq<string>, n: nat, position: seq<Option<nat>>, filled: set<nat>, slot: nat)
    requires Resolved(outlets, n, position, filled) && slot < SLOTS
    requires (n < |outlets| && NAMES[slot] == outlets[n] && position[slot].Some?)
             || (n == |outlets| && position[slot].None?)
    ensures !Complete(outlets)
  {
    NamesAreDistinct();
  }

  /** Resolves the canonical slots once per worker; refuses unknown, duplicate and
   *  missing inputs, and nothing else. */
  method ResolveOrder(outlets: seq<string>) returns (order: Option<seq<nat>>)
    ensures order.Some? <==> Complete(outlets)
    ensures order.Some? ==> IsOrder(outlets, order.value)
  {
    var position: seq<Option<nat>> := seq(SLOTS, _ => None);
    ghost var filled: set<nat> := {};
    assert Resolved(outlets, 0, position, filled);
    for index := 0 to |outlets|
      invariant Resolved(outlets, index, position, filled)
    {
      var slot := Slot(outlets[index]);
      if slot.None? {
        UnknownName(outlets, index);
        return None;
      }
      if position[slot.value].Some? {
        Incomplete(outlets, index, position, filled, slot.value);
        return None;
      }
      ResolveOne(outlets, index, position, filled, slot.value);
      position := position[slot.value := Some(index)];
      filled := filled + {slot.value};
    }
    order := Positions(position);
    if order.None? {
      var i: nat :| i < SLOTS && position[i].None?;
      Incomplete(outlets, |outlets|, position, filled, i);
    } else {
      ResolvedIsOrder(outlets, position, filled, order.value);
    }
  }

  /** The table without its options, if no slot is missing. */
  method Positions(position: seq<Option<nat>>) returns (order: Option<seq<nat>>)
    requires |position| == SLOTS
    ensures order.None? ==> exists i: nat :: i < SLOTS && position[i].None?
    ensures order.Some? ==> |order.value| == SLOTS
    ensures order.Some? ==> forall i :: 0 <= i < SLOTS ==> position[i] == Some(order.value[i])
  {
    var result: seq<nat> := [];
    for i := 0 to SLOTS
      invariant |result| == i && forall j :: 0 <= j < i ==> position[j] == Some(result[j])
    {
      if position[i].None? {
        return None;
      }
      result := result + [position[i].value];
    }
    return Some(result);
  }

  lemma UnknownName(outlets: seq<string>, n: nat)
    requires n < |outlets| && forall i :: 0 <= i < SLOTS ==> NAMES[i] != outlets[n]
    ensures !Complete(outlets)
  {
    assert outlets[n] !in NAMES;
  }

  /** A positional session reads the value at the position of each name. */
  ghost predicate Reads(order: seq<nat>, inputs: seq<Value>, values: seq<Value>) {
    && |order| == |inputs| == |values| == SLOTS
    && forall i :: 0 <= i < SLOTS ==> order[i] < SLOTS && inputs[order[i]] == values[i]
  }

  /** Moves the inputs to their positions, runs, and takes the retained values back
   *  by the same positions: the generation is unchanged. */
  method RunDecoder(generation: Generation, order: seq<nat>, ghost outlets: seq<string>,
                    ghost run: Session, runAt: Session)
    returns (features: seq<Hidden>, output: Option<StepOutput>)
    requires generation.Valid() && IsOrder(outlets, order)
    requires forall inputs, values :: Reads(order, inputs, values) ==> runAt(inputs) == run(values)
    modifies generation`cache
    ensures generation.Valid() && generation.cache == old(generation.cache)
    ensures features == generation.hidden
    ensures output == run(generation.View().Inputs())
  {
    var values := generation.View().Inputs();
    generation.cache := [];
    var slots: seq<Option<Value>> := seq(SLOTS, _ => None);
    for i := 0 to SLOTS
      invariant |slots| == SLOTS && generation.cache == []
      invariant forall j :: 0 <= j < i ==> slots[order[j]] == Some(values[j])
      invariant forall p :: 0 <= p < SLOTS && slots[p].None? ==> p !in order[..i]
    {
      slots := slots[order[i] := Some(values[i])];
      assert order[..i + 1] == order[..i] + [order[i]];
    }
    EveryPositionIsFilled(outlets, order);
    assert order[..SLOTS] == order;
    var inputs := seq(SLOTS, p requires 0 <= p < SLOTS => slots[p].value);
    assert Reads(order, inputs, values);
    output := runAt(inputs);
    features := slots[order[1]].value.features;
    for i := 0 to CACHES
      invariant |generation.cache| == i
      invariant forall j :: 0 <= j < i ==> generation.cache[j] == old(generation.cache)[j]
    {
      assert values[3 + i] == Past(old(generation.cache)[i]);
      generation.cache := generation.cache + [slots[order[3 + i]].value.rows];
    }
    assert generation.cache == old(generation.cache);
  }

  /** Eleven distinct positions below eleven are all positions. */
  lemma EveryPositionIsFilled(outlets: seq<string>, order: seq<nat>)
    requires IsOrder(outlets, order)
    ensures forall p :: 0 <= p < SLOTS ==> p in order
  {
    var positions: set<nat> := set i | 0 <= i < SLOTS :: order[i];
    DistinctPositions(order, SLOTS);
    forall p: nat | p < SLOTS && p !in order ensures false {
      SlotSets(positions + {p}, SLOTS);
    }
  }

  lemma {:induction false} DistinctPositions(order: seq<nat>, n: nat)
    requires n <= |order| && forall i, j :: 0 <= i < j < n ==> order[i] != order[j]
    ensures |set i | 0 <= i < n :: order[i]| == n
  {
    if n > 0 {
      DistinctPositions(order, n - 1);
      assert (set i | 0 <= i < n :: order[i]) == (set i | 0 <= i < n - 1 :: order[i]) + {order[n - 1]};
    }
  }

  /** The browser's loop over a positional session. */
  method RecognizeBrowser(run: Session, runAt: Session, ghost outlets: seq<string>, order: seq<nat>,
                          hidden: seq<Hidden>, gone: Gone)
    returns (r: Result<Gen, Error>)
    requires IsOrder(outlets, order)
    requires forall inputs, values :: Reads(order, inputs, values) ==> runAt(inputs) == run(values)
    ensures r == BrowserLoop(run, NewGen(hidden), gone, 1)
  {
    var generation := new Generation(hidden);
    for k := 1 to MAX_LENGTH
      invariant fresh(generation) && generation.Valid() && generation.hidden == hidden
      invariant BrowserLoop(run, generation.View(), gone, k) == BrowserLoop(run, NewGen(hidden), gone, 1)
    {
      var stopped := generation.Cancel(Looks(gone, k, |hidden|));
      if stopped {
        return Failure(Canceled);
      }
      ghost var g := generation.View();
      var _, output := RunDecoder(generation, order, outlets, run, runAt);
      assert generation.View() == g;
      if output.None? {
        return Failure(SessionFailed);
      }
      var done := generation.Advance(output.value);
      match done
      case Failure(e) => return Failure(e);
      case Success(d) => if d { return Success(generation.View()); }
    }
    return Success(generation.View());
  }
}
