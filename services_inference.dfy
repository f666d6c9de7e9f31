/**
 * The deterministic parts of `run_model` (app/services/inference.py): the
 * reshaping of the preprocessed image into the model's input layout and the
 * choice of the label from the model's scores. Decoding, resizing,
 * normalising and the forward pass are parameters.
 */
module Inference {
  import opened Wrappers
  import opened PredictionModel

  /** Side of the square the image is resized to. */
  const InputSide: nat := 224
  /** Colour channels after conversion to RGB. */
  const Channels: nat := 3

  /** Why `run_model` raises. */
  datatype ModelError =
    | PreprocessFailed      // the bytes do not decode as an image
    | SessionFailed         // the forward pass fails
    | EmptyScores           // `argmax` of an empty score vector
    | LabelIndexOutOfRange  // the label table is shorter than the score vector

  /** `t` is a rectangular 3-D array of shape (d0, d1, d2). */
  ghost predicate HasShape3<T>(t: seq<seq<seq<T>>>, d0: nat, d1: nat, d2: nat)
  {
    |t| == d0
    && (forall i :: 0 <= i < d0 ==> |t[i]| == d1)
    && (forall i, j :: 0 <= i < d0 && 0 <= j < d1 ==> |t[i][j]| == d2)
  }

  /** `t` is a rectangular 4-D array of shape (d0, d1, d2, d3). */
  ghost predicate HasShape4<T>(t: seq<seq<seq<seq<T>>>>, d0: nat, d1: nat, d2: nat, d3: nat)
  {
    |t| == d0 && forall i :: 0 <= i < d0 ==> HasShape3(t[i], d1, d2, d3)
  }

  /** `np.transpose(hwc, (2, 0, 1))`: height-width-channel to channel-height-width. */
  function HwcToChw<T>(hwc: seq<seq<seq<T>>>, h: nat, w: nat, c: nat): (chw: seq<seq<seq<T>>>)
    requires HasShape3(hwc, h, w, c)
    ensures HasShape3(chw, c, h, w)
    ensures forall ci, hi, wi :: 0 <= ci < c && 0 <= hi < h && 0 <= wi < w ==>
              chw[ci][hi][wi] == hwc[hi][wi][ci]
  {
    seq(c, ci requires 0 <= ci < c =>
      seq(h, hi requires 0 <= hi < h =>
        seq(w, wi requires 0 <= wi < w => hwc[hi][wi][ci])))
  }

  /** `np.transpose(chw, (1, 2, 0))`, the inverse permutation of the axes. */
  function ChwToHwc<T>(chw: seq<seq<seq<T>>>, c: nat, h: nat, w: nat): (hwc: seq<seq<seq<T>>>)
    requires HasShape3(chw, c, h, w)
    ensures HasShape3(hwc, h, w, c)
    ensures forall hi, wi, ci :: 0 <= hi < h && 0 <= wi < w && 0 <= ci < c ==>
              hwc[hi][wi][ci] == chw[ci][hi][wi]
  {
    seq(h, hi requires 0 <= hi < h =>
      seq(w, wi requires 0 <= wi < w =>
        seq(c, ci requires 0 <= ci < c => chw[ci][hi][wi])))
  }

  /** The transpose loses nothing: undoing it gives back the image. */
  lemma TransposeRoundTrip<T>(hwc: seq<seq<seq<T>>>, h: nat, w: nat, c: nat)
    requires HasShape3(hwc, h, w, c)
    ensures ChwToHwc(HwcToChw(hwc, h, w, c), c, h, w) == hwc
  {
    var back := ChwToHwc(HwcToChw(hwc, h, w, c), c, h, w);
    forall hi | 0 <= hi < h ensures back[hi] == hwc[hi] {
      forall wi | 0 <= wi < w ensures back[hi][wi] == hwc[hi][wi] {
      }
    }
  }

  /** `np.expand_dims(t, axis=0)`: a leading batch axis of size one. */
  function ExpandDims<T>(t: seq<seq<seq<T>>>): (batch: seq<seq<seq<seq<T>>>>)
    ensures |batch| == 1 && batch[0] == t
    ensures forall d0, d1, d2 :: HasShape3(t, d0, d1, d2) ==> HasShape4(batch, 1, d0, d1, d2)
  {
    [t]
  }

  /** The tensor `run_model` feeds to the session, built from the normalised image. */
  function ModelInput<T>(hwc: seq<seq<seq<T>>>): (input: seq<seq<seq<seq<T>>>>)
    requires HasShape3(hwc, InputSide, InputSide, Channels)
    ensures HasShape4(input, 1, Channels, InputSide, InputSide)
    ensures forall ci, hi, wi :: 0 <= ci < Channels && 0 <= hi < InputSide && 0 <= wi < InputSide ==>
              input[0][ci][hi][wi] == hwc[hi][wi][ci]
  {
    ExpandDims(HwcToChw(hwc, InputSide, InputSide, Channels))
  }

  /**
   * An image of shape (224, 224, 3) becomes a batch of shape (1, 3, 224, 224)
   * whose only element is the channel-first image.
   */
  lemma ModelInputLayout<T>(hwc: seq<seq<seq<T>>>)
    requires HasShape3(hwc, InputSide, InputSide, Channels)
    ensures HasShape4(ModelInput(hwc), 1, Channels, InputSide, InputSide)
    ensures ModelInput(hwc)[0] == HwcToChw(hwc, InputSide, InputSide, Channels)
    ensures forall ci, hi, wi :: 0 <= ci < Channels && 0 <= hi < InputSide && 0 <= wi < InputSide ==>
              ModelInput(hwc)[0][ci][hi][wi] == hwc[hi][wi][ci]
  {
  }

  /** `i` is where `np.argmax` points: a maximum, and the first one. */
  ghost predicate IsFirstMax(scores: seq<int>, i: int)
  {
    0 <= i < |scores|
    && (forall j :: 0 <= j < |scores| ==> scores[j] <= scores[i])
    && (forall j :: 0 <= j < i ==> scores[j] < scores[i])
  }

  /** `np.argmax`: the index of the first maximal score. */
  function ArgMax(scores: seq<int>): (i: nat)
    requires |scores| > 0
    ensures IsFirstMax(scores, i)
  {
    if |scores| == 1 then 0
    else
      var k := ArgMax(scores[..|scores| - 1]);
      if scores[|scores| - 1] > scores[k] then |scores| - 1 else k
  }

  /** Exactly one index is a first maximum, so the choice among ties is fixed. */
  lemma FirstMaxUnique(scores: seq<int>, i: int)
    requires |scores| > 0
    ensures IsFirstMax(scores, i) <==> i == ArgMax(scores)
  {
  }

  /** `labels[int(np.argmax(scores))]`, with the two ways it raises. */
  function SelectLabel(scores: seq<int>, labels: seq<string>): (r: Result<string, ModelError>)
    ensures r.Success? <==> |scores| > 0 && ArgMax(scores) < |labels|
    ensures r.Success? ==> exists i :: IsFirstMax(scores, i) && i < |labels| && r.value == labels[i]
    ensures r.Success? ==> r.value in labels
    ensures 0 < |scores| <= |labels| ==> r.Success?
    ensures |scores| == 0 ==> r == Failure(EmptyScores)
    ensures 0 < |scores| && ArgMax(scores) >= |labels| ==> r == Failure(LabelIndexOutOfRange)
  {
    if |scores| == 0 then Failure(EmptyScores)
    else
      var i := ArgMax(scores);
      if i < |labels| then Success(labels[i]) else Failure(LabelIndexOutOfRange)
  }

  /**
   * `run_model`: `decode` stands for opening, converting to RGB, resizing to
   * 224 x 224 and normalising, which always yields a (224, 224, 3) image;
   * `session` stands for the forward pass and returns the flattened scores.
   * The label table is a value read once by the caller and never changed.
   */
  function RunModel<P>(imageBytes: seq<Byte>,
                       decode: seq<Byte> -> Option<seq<seq<seq<P>>>>,
                       session: seq<seq<seq<seq<P>>>> -> Option<seq<int>>,
                       labels: seq<string>): (r: Result<string, ModelError>)
    requires forall b :: decode(b).Some? ==> HasShape3(decode(b).value, InputSide, InputSide, Channels)
    ensures decode(imageBytes).None? ==> r == Failure(PreprocessFailed)
    ensures r.Success? ==> r.value in labels
    ensures decode(imageBytes).Some? && session(ModelInput(decode(imageBytes).value)).None? ==>
              r == Failure(SessionFailed)
    ensures decode(imageBytes).Some? && session(ModelInput(decode(imageBytes).value)).Some? ==>
              r == SelectLabel(session(ModelInput(decode(imageBytes).value)).value, labels)
  {
    match decode(imageBytes)
    case None => Failure(PreprocessFailed)
    case Some(hwc) =>
      match session(ModelInput(hwc))
      case None => Failure(SessionFailed)
      case Some(scores) => SelectLabel(scores, labels)
  }
}
