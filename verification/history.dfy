/**
 * Channel history records and the extraction of their text: the list
 * comprehension that keeps the `text` of every record that has a truthy one.
 */
module History {
  import opened Wrappers

  /** One record of a channel's history. Only its `text` field is read;
      records such as file shares or joins carry none (`None`). */
  datatype Message = Message(text: Option<string>)

  /** Python truthiness of `m.get("text")`: present and non-empty. */
  predicate HasText(m: Message) {
    m.text.Some? && |m.text.value| > 0
  }

  /** `[m.get("text", "") for m in messages if m.get("text")]`. */
  function ExtractTexts(ms: seq<Message>): (texts: seq<string>)
    ensures |texts| <= |ms|
    ensures forall k :: 0 <= k < |texts| ==> |texts[k]| > 0
    ensures |texts| == 0 <==> forall j :: 0 <= j < |ms| ==> !HasText(ms[j])
  {
    if |ms| == 0 then []
    else
      var front, last := ms[..|ms| - 1], ms[|ms| - 1];
      assert forall j :: 0 <= j < |front| ==> front[j] == ms[j];
      ExtractTexts(front) + (if HasText(last) then [last.text.value] else [])
  }

  /** The positions of the records that have text, in increasing order:
      an independent, index-based description of the same selection. */
  function KeptIndices(ms: seq<Message>): (idx: seq<nat>)
  {
    if |ms| == 0 then []
    else
      KeptIndices(ms[..|ms| - 1]) + (if HasText(ms[|ms| - 1]) then [|ms| - 1] else [])
  }

  /** The kept positions are in range and belong to records with text,
      are strictly increasing, and include every record that has text. */
  lemma {:induction false} KeptIndicesPositions(ms: seq<Message>)
    ensures forall k :: 0 <= k < |KeptIndices(ms)| ==>
      KeptIndices(ms)[k] < |ms| && HasText(ms[KeptIndices(ms)[k]])
    ensures forall k, l :: 0 <= k < l < |KeptIndices(ms)| ==>
      KeptIndices(ms)[k] < KeptIndices(ms)[l]
    ensures forall j :: 0 <= j < |ms| && HasText(ms[j]) ==> j in KeptIndices(ms)
    decreases |ms|
  {
    if |ms| > 0 {
      var front := ms[..|ms| - 1];
      KeptIndicesPositions(front);
      assert forall j :: 0 <= j < |front| ==> front[j] == ms[j];
    }
  }

  /** Extraction distributes over concatenation of histories. */
  lemma {:induction false} ExtractConcat(a: seq<Message>, b: seq<Message>)
    ensures ExtractTexts(a + b) == ExtractTexts(a) + ExtractTexts(b)
    decreases |b|
  {
    if |b| > 0 {
      var front := b[..|b| - 1];
      assert (a + b)[..|a + b| - 1] == a + front;
      assert (a + b)[|a + b| - 1] == b[|b| - 1];
      ExtractConcat(a, front);
    } else {
      assert a + b == a;
    }
  }

  /** Extraction keeps exactly the records with text, in the order
      received: the k-th extracted text is the text of the k-th record that
      has one, and no other record contributes. */
  lemma {:induction false} ExtractionSelectsKept(ms: seq<Message>)
    ensures |ExtractTexts(ms)| == |KeptIndices(ms)|
    ensures forall k :: 0 <= k < |ExtractTexts(ms)| ==>
      KeptIndices(ms)[k] < |ms| && HasText(ms[KeptIndices(ms)[k]]) &&
      ExtractTexts(ms)[k] == ms[KeptIndices(ms)[k]].text.value
    decreases |ms|
  {
    if |ms| > 0 {
      var front, last := ms[..|ms| - 1], ms[|ms| - 1];
      ExtractionSelectsKept(front);
      var e, kept := ExtractTexts(front), KeptIndices(front);
      assert ExtractTexts(ms) == e + (if HasText(last) then [last.text.value] else []);
      assert KeptIndices(ms) == kept + (if HasText(last) then [|ms| - 1] else []);
      forall k | 0 <= k < |e|
        ensures KeptIndices(ms)[k] == kept[k] && ExtractTexts(ms)[k] == e[k]
        ensures ms[kept[k]] == front[kept[k]]
      {
      }
    }
  }
}
