/**
 * Choosing which cached detections to segment (the `object_indices` handling of the
 * `segment_with_sam` tool in backend/server.py).
 */
module Subset {
  import opened Wrappers
  import opened Geometry
  import opened Vision

  /** Python's `list(range(n))`: the default index list. */
  function Range(n: nat): (r: seq<int>)
    ensures |r| == n && forall i :: 0 <= i < n ==> r[i] == i
  {
    seq(n, i => i)
  }

  /** A Python index into a sequence of length n is valid when -n <= i < n. */
  predicate InRange(i: int, n: nat)
  {
    -(n as int) <= i < n
  }

  /** Python's index normalisation: a negative index counts from the end. */
  function Norm(i: int, n: nat): (k: nat)
    requires InRange(i, n)
    ensures k < n && (k == i || k == i + n)
  {
    if i < 0 then i + n else i
  }

  /** Literal selection `[xs[i] for i in indices]`, or None where Python raises IndexError. */
  function Gather<T>(xs: seq<T>, indices: seq<int>): (r: Option<seq<T>>)
    ensures r.Some? <==> forall k :: 0 <= k < |indices| ==> InRange(indices[k], |xs|)
    ensures r.Some? ==>
      |r.value| == |indices| && forall k :: 0 <= k < |indices| ==> r.value[k] == xs[Norm(indices[k], |xs|)]
  {
    if indices == [] then Some([])
    else if !InRange(indices[0], |xs|) then None
    else
      match Gather(xs, indices[1..])
      case None => None
      case Some(rest) => Some([xs[Norm(indices[0], |xs|)]] + rest)
  }

  /** One column's selection: literal only when the index list is shorter than the column. */
  function Pick<T>(xs: seq<T>, indices: seq<int>): Option<seq<T>>
  {
    if |indices| < |xs| then Gather(xs, indices) else Some(xs)
  }

  /** The boxes, scores and phrases chosen for segmentation. */
  datatype Selection = Selection(boxes: seq<Box>, logits: seq<real>, phrases: seq<string>)

  /**
   * The three selections of the cached detection. An index list at least as long as the cached
   * set selects the whole set whatever it lists; a shorter one selects literally, in the order
   * given, and an out-of-range index raises (None).
   */
  function Select(d: DetectionResult, indices: seq<int>): (r: Option<Selection>)
    ensures |indices| >= |d.phrases| ==> r == Some(Selection(d.boxes, d.logits, d.phrases))
    ensures |indices| < |d.phrases| ==>
      (r.Some? <==> forall k :: 0 <= k < |indices| ==> InRange(indices[k], |d.phrases|))
    ensures |indices| < |d.phrases| && r.Some? ==>
      var s := r.value;
      |s.boxes| == |s.logits| == |s.phrases| == |indices|
      && forall k :: 0 <= k < |indices| ==>
        var i := Norm(indices[k], |d.phrases|);
        s.boxes[k] == d.boxes[i] && s.logits[k] == d.logits[i] && s.phrases[k] == d.phrases[i]
  {
    var boxes := Pick(d.boxes, indices);
    var phrases := Pick(d.phrases, indices);
    var logits := Pick(d.logits, indices);
    if boxes.None? || phrases.None? || logits.None? then None
    else Some(Selection(boxes.value, logits.value, phrases.value))
  }

  /** With the index list omitted, the default `range(n)` selects every cached detection. */
  lemma DefaultSelectsAll(d: DetectionResult)
    ensures Select(d, Range(|d.phrases|)) == Some(Selection(d.boxes, d.logits, d.phrases))
  {
  }

  /**
   * The length quirk: with three cached detections the list [0, 0, 0] selects all three, while the
   * shorter list [0, 0] selects the first detection twice.
   */
  lemma LengthQuirk(d: DetectionResult)
    requires |d.phrases| == 3
    ensures Select(d, [0, 0, 0]) == Some(Selection(d.boxes, d.logits, d.phrases))
    ensures Select(d, [0, 0]) == Some(Selection([d.boxes[0], d.boxes[0]], [d.logits[0], d.logits[0]],
                                                [d.phrases[0], d.phrases[0]]))
  {
    var s := Select(d, [0, 0]);
    assert InRange(0, 3) && Norm(0, 3) == 0;
    assert s.Some?;
    assert s.value.boxes == [d.boxes[0], d.boxes[0]];
    assert s.value.logits == [d.logits[0], d.logits[0]];
    assert s.value.phrases == [d.phrases[0], d.phrases[0]];
  }
}
