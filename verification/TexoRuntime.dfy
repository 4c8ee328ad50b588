/** `generate` of optimum-texo/runtime.py: one model call serves many crops.
 *
 *  Preprocessing, the network and the tokenizer are foreign code and appear as
 *  functions. What is assumed of the network is only what greedy decoding
 *  without beams gives: the row of a crop does not depend on its batch peers,
 *  except for the padding appended after the row has produced EOS.
 */
module TexoRuntime {
  import opened Wrappers

  /** The identity of one decoded crop; its pixels are never inspected here. */
  type Image = int

  type Pixels = int

  /** One slot of the result list: `{"text", "output_tokens"}` or `{"error"}`. */
  datatype Outcome = Recognized(text: string, tokens: nat) | Rejected(reason: string)

  datatype Model = Model(
    preprocess: Image -> Result<Pixels, string>,
    row: (Pixels, nat) -> seq<nat>,
    decode: seq<nat> -> string,
    eos: nat,
    pad: nat)
  {
    /** The reply to one decoded row, cut at its first EOS. */
    function Read(row: seq<nat>): Outcome {
      match FirstIndex(row, eos)
      case None => Rejected("generation reached its limit without EOS")
      case Some(end) =>
        var latex := decode(row[..end + 1]);
        if latex == "" then Rejected("model returned empty LaTeX") else Recognized(latex, end)
    }

    /** What one crop gets when it has the model to itself at its own budget. */
    function Solo(image: Image, maxLength: nat): Outcome {
      match preprocess(image)
      case Failure(reason) => Rejected(reason)
      case Success(pixels) => Read(row(pixels, maxLength))
    }

    /** `padded` is the batched form of the solo row `solo`. */
    ghost predicate Padded(solo: seq<nat>, padded: seq<nat>) {
      && solo <= padded
      && (padded != solo ==> eos in solo)
      && forall k :: |solo| <= k < |padded| ==> padded[k] == pad
    }

    /** The row-wise hypothesis on one call of the batched network. */
    ghost predicate RowWise(infer: (seq<Pixels>, nat) -> Option<seq<seq<nat>>>) {
      forall inputs: seq<Pixels>, maxLength: nat ::
        Answers(infer, inputs, maxLength) ==>
          forall k :: 0 <= k < |inputs| ==>
            Padded(row(inputs[k], maxLength), infer(inputs, maxLength).value[k])
    }

    /** The call returned, with one row for every input. */
    predicate Answers(infer: (seq<Pixels>, nat) -> Option<seq<seq<nat>>>,
                      inputs: seq<Pixels>, maxLength: nat) {
      infer(inputs, maxLength).Some? && |infer(inputs, maxLength).value| == |inputs|
    }

    /** The valid crops, in caller order. */
    function Inputs(images: seq<Image>): seq<Pixels> {
      if images == [] then []
      else
        var rest := Inputs(images[..|images| - 1]);
        match preprocess(images[|images| - 1])
        case Success(pixels) => rest + [pixels]
        case Failure(_) => rest
    }
  }

  function FirstIndex(row: seq<nat>, token: nat): (r: Option<nat>)
    ensures r.Some? ==> r.value < |row| && row[r.value] == token
    ensures r.Some? ==> forall k :: 0 <= k < r.value ==> row[k] != token
    ensures r.None? ==> token !in row
  {
    if row == [] then None
    else if row[0] == token then Some(0)
    else
      match FirstIndex(row[1..], token)
      case None => None
      case Some(k) =>
        assert forall j :: 0 < j < k + 1 ==> row[j] == row[1..][j - 1];
        Some(k + 1)
  }

  /** Padding never changes the reply: it follows the first EOS. */
  lemma PaddingIsUnread(m: Model, solo: seq<nat>, padded: seq<nat>)
    requires m.Padded(solo, padded)
    ensures m.Read(padded) == m.Read(solo)
  {
    if padded != solo {
      var end := FirstIndex(solo, m.eos).value;
      assert padded[end] == m.eos && forall k :: 0 <= k < end ==> padded[k] == solo[k];
      assert FirstIndex(padded, m.eos) == Some(end);
      assert padded[..end + 1] == solo[..end + 1];
    }
  }

  /** What one crop gets, said of the row the network gives it: the text is what decodes
   *  from the row up to and including the first EOS, the count is the place of that EOS,
   *  and without an EOS, without text or without pixels there is an error. */
  lemma SoloReadsToFirstEnd(m: Model, image: Image, maxLength: nat, pixels: Pixels)
    ensures m.preprocess(image).Failure? ==> m.Solo(image, maxLength) == Rejected(m.preprocess(image).error)
    ensures m.preprocess(image) == Success(pixels) ==>
              var row := m.row(pixels, maxLength);
              && (m.eos !in row ==> m.Solo(image, maxLength).Rejected?)
              && forall end: nat ::
                   end < |row| && row[end] == m.eos && (forall k :: 0 <= k < end ==> row[k] != m.eos) ==>
                   var text := m.decode(row[..end + 1]);
                   && (text == "" ==> m.Solo(image, maxLength).Rejected?)
                   && (text != "" ==> m.Solo(image, maxLength) == Recognized(text, end))
  {
    if m.preprocess(image) == Success(pixels) {
      var row := m.row(pixels, maxLength);
      forall end: nat | end < |row| && row[end] == m.eos && (forall k :: 0 <= k < end ==> row[k] != m.eos)
        ensures FirstIndex(row, m.eos) == Some(end)
      {
        var first := FirstIndex(row, m.eos);
        assert first.Some?;
      }
    }
  }

  /** Every slot without a reply yet is one of the indices, whose crops are the inputs. */
  ghost predicate Split(m: Model, images: seq<Image>, maxLength: nat, results: seq<Option<Outcome>>,
                        inputs: seq<Pixels>, indices: seq<nat>)
  {
    && |results| == |images| && |inputs| == |indices|
    && (forall k :: 0 <= k < |indices| ==>
          indices[k] < |images| && m.preprocess(images[indices[k]]) == Success(inputs[k]))
    && (forall k :: 0 <= k < |images| && results[k].Some? ==> results[k] == Some(m.Solo(images[k], maxLength)))
    && (forall k :: 0 <= k < |images| && results[k].None? ==> k in indices)
  }

  /** The first pass: preprocessing failures fill their slots, the other crops are batched. */
  method Prepare(m: Model, images: seq<Image>, ghost maxLength: nat)
    returns (results: seq<Option<Outcome>>, inputs: seq<Pixels>, indices: seq<nat>)
    ensures inputs == m.Inputs(images) && Split(m, images, maxLength, results, inputs, indices)
  {
    results := seq(|images|, _ => None);
    inputs, indices := [], [];
    for index := 0 to |images|
      invariant |results| == |images| && forall k :: index <= k < |images| ==> results[k] == None
      invariant Split(m, images[..index], maxLength, results[..index], inputs, indices)
      invariant inputs == m.Inputs(images[..index])
    {
      assert images[..index + 1][..index] == images[..index];
      ghost var before, done := indices, results[..index];
      match m.preprocess(images[index])
      case Success(pixels) =>
        inputs, indices := inputs + [pixels], indices + [index];
        assert indices[|before|] == index && forall k :: k in before ==> k in indices;
        assert results[..index + 1] == done + [None];
      case Failure(reason) =>
        results := results[index := Some(Rejected(reason))];
        assert results[..index + 1] == done + [Some(Rejected(reason))];
    }
    assert images[..|images|] == images && results[..|images|] == results;
  }

  /** The second pass: each decoded row fills the slot it came from. */
  method FillSlots(m: Model, images: seq<Image>, maxLength: nat, slots: seq<Option<Outcome>>,
                   ghost inputs: seq<Pixels>, indices: seq<nat>, rows: seq<seq<nat>>)
    returns (results: seq<Option<Outcome>>)
    requires Split(m, images, maxLength, slots, inputs, indices) && |rows| == |indices|
    requires forall k :: 0 <= k < |rows| ==> m.Padded(m.row(inputs[k], maxLength), rows[k])
    ensures |results| == |images|
    ensures forall k :: 0 <= k < |images| ==> results[k] == Some(m.Solo(images[k], maxLength))
  {
    results := slots;
    for at := 0 to |indices|
      invariant |results| == |images|
      invariant forall k :: 0 <= k < |images| && results[k].Some? ==>
                  results[k] == Some(m.Solo(images[k], maxLength))
      invariant forall k :: 0 <= k < |images| && results[k].None? ==> k in indices[at..]
    {
      PaddingIsUnread(m, m.row(inputs[at], maxLength), rows[at]);
      results := results[indices[at] := Some(m.Read(rows[at]))];
      assert forall k :: k in indices[at..] ==> k == indices[at] || k in indices[at + 1..];
    }
  }

  /** Fills one slot per crop: preprocessing failures in the first pass, decoded
   *  rows in the second. `None` is a raised exception, which the caller turns
   *  into a failure of exactly this group.
   */
  method Generate(m: Model, infer: (seq<Pixels>, nat) -> Option<seq<seq<nat>>>,
                  images: seq<Image>, maxLength: nat)
    returns (reply: Option<seq<Outcome>>)
    requires m.RowWise(infer)
    ensures reply.None? <==> m.Inputs(images) != [] && !m.Answers(infer, m.Inputs(images), maxLength)
    ensures reply.Some? ==> |reply.value| == |images|
    ensures reply.Some? ==>
              forall k :: 0 <= k < |images| ==> reply.value[k] == m.Solo(images[k], maxLength)
  {
    var results, inputs, indices := Prepare(m, images, maxLength);
    if inputs != [] {
      var rows := infer(inputs, maxLength);
      if rows.None? || |rows.value| != |indices| {
        return None;
      }
      results := FillSlots(m, images, maxLength, results, inputs, indices, rows.value);
    }
    return Some(seq(|images|, k requires 0 <= k < |images| && results[k].Some? => results[k].value));
  }
}
