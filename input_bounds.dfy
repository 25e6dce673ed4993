/** Derivation of the normalised input box of one image (`create_input_bounds`):
    every pixel p gives the row
      ((clip(p - eps, 0, 1) - mean_c) / std_c, (clip(p + eps, 0, 1) - mean_c) / std_c)
    and the C×H×W rows are flattened in channel-major order into an N×2 table.
    Arithmetic is over the reals; float32 rounding is not modelled. */
module InputBounds {

  /** One row of the N×2 table: column 0 is the lower, column 1 the upper bound. */
  datatype Bound = Bound(lower: real, upper: real)

  /** An image tensor indexed [channel][row][column]. */
  type Image = seq<seq<seq<real>>>

  /** The image has shape C×H×W. */
  predicate IsShaped(img: Image, c: nat, h: nat, w: nat) {
    |img| == c &&
    forall ch :: 0 <= ch < c ==>
      |img[ch]| == h && forall r :: 0 <= r < h ==> |img[ch][r]| == w
  }

  /** The per-channel normalisation constants the script uses by default. */
  const CifarMean: seq<real> := [0.4914, 0.4822, 0.4465]
  const CifarStd: seq<real> := [0.2471, 0.2435, 0.2616]

  predicate PositiveStd(std: seq<real>) {
    forall c :: 0 <= c < |std| ==> std[c] > 0.0
  }

  lemma CifarStdPositive()
    ensures |CifarMean| == |CifarStd| == 3 && PositiveStd(CifarStd)
  {
  }

  /** `torch.clip(v, lo, hi)`, that is min(max(v, lo), hi). */
  function Clip(v: real, lo: real, hi: real): real {
    var m := if v >= lo then v else lo;
    if m <= hi then m else hi
  }

  /** The normalisation `(v - mean) / std` applied before the network. */
  function Normalize(v: real, mean: real, std: real): real
    requires std > 0.0
  {
    (v - mean) / std
  }

  /** The row of one pixel. */
  function PixelBound(p: real, eps: real, mean: real, std: real): Bound
    requires std > 0.0
  {
    Bound(Normalize(Clip(p - eps, 0.0, 1.0), mean, std),
          Normalize(Clip(p + eps, 0.0, 1.0), mean, std))
  }

  /** Concatenation of the rows of a two-dimensional sequence (row-major). */
  function Flatten<T>(s: seq<seq<T>>): seq<T> {
    if s == [] then [] else s[0] + Flatten(s[1..])
  }

  /** The rows of the pixels of one channel, one sequence per image row. */
  function PixelRows(ch: seq<seq<real>>, eps: real, mean: real, std: real): (rows: seq<seq<Bound>>)
    requires std > 0.0
    ensures |rows| == |ch|
    ensures forall r :: 0 <= r < |ch| ==> |rows[r]| == |ch[r]|
  {
    seq(|ch|, r requires 0 <= r < |ch| =>
      seq(|ch[r]|, col requires 0 <= col < |ch[r]| => PixelBound(ch[r][col], eps, mean, std)))
  }

  /** The rows of one channel, row-major. */
  function ChannelBounds(ch: seq<seq<real>>, eps: real, mean: real, std: real): seq<Bound>
    requires std > 0.0
  {
    Flatten(PixelRows(ch, eps, mean, std))
  }

  /** The tables of the channels, one per channel. */
  function ChannelTables(img: Image, eps: real, mean: seq<real>, std: seq<real>): (t: seq<seq<Bound>>)
    requires |mean| == |img| && |std| == |img| && PositiveStd(std)
    ensures |t| == |img|
  {
    seq(|img|, c requires 0 <= c < |img| => ChannelBounds(img[c], eps, mean[c], std[c]))
  }

  /** `create_input_bounds(img, eps, mean, std)`: the flattened N×2 table. */
  function CreateInputBounds(img: Image, eps: real, mean: seq<real>, std: seq<real>): seq<Bound>
    requires |mean| == |img| && |std| == |img| && PositiveStd(std)
  {
    Flatten(ChannelTables(img, eps, mean, std))
  }

  // ---------------------------------------------------------------------------
  // Flattening

  lemma {:induction false} FlattenLength<T>(s: seq<seq<T>>, w: nat)
    requires forall i :: 0 <= i < |s| ==> |s[i]| == w
    ensures |Flatten(s)| == |s| * w
  {
    if s != [] {
      FlattenLength(s[1..], w);
    }
  }

  /** Element j of row i sits at position i * w + j of the flattened sequence. */
  lemma {:induction false} FlattenAt<T>(s: seq<seq<T>>, w: nat, i: nat, j: nat)
    requires forall k :: 0 <= k < |s| ==> |s[k]| == w
    requires i < |s| && j < w
    ensures i * w + j < |Flatten(s)| && Flatten(s)[i * w + j] == s[i][j]
  {
    FlattenLength(s, w);
    if i > 0 {
      FlattenAt(s[1..], w, i - 1, j);
      FlattenLength(s[1..], w);
      assert (i - 1) * w + j == i * w + j - w;
    }
  }

  /** Every element of the flattened sequence comes from one of the rows. */
  lemma {:induction false} FlattenMember<T>(s: seq<seq<T>>, x: T)
    requires x in Flatten(s)
    ensures exists i, j :: 0 <= i < |s| && 0 <= j < |s[i]| && s[i][j] == x
  {
    if x in s[0] {
      var j :| 0 <= j < |s[0]| && s[0][j] == x;
      assert s[0][j] == x;
    } else {
      FlattenMember(s[1..], x);
      var i, j :| 0 <= i < |s[1..]| && 0 <= j < |s[1..][i]| && s[1..][i][j] == x;
      assert s[i + 1][j] == x;
    }
  }

  // ---------------------------------------------------------------------------
  // Properties of the table

  /** Multiplying by a natural number is monotone. */
  lemma MulMonotone(a: nat, b: nat, w: nat)
    requires a <= b
    ensures a * w <= b * w
  {
    var d: nat := b - a;
    assert b * w == a * w + d * w;
  }

  /** A position inside a row of width w and height h stays below h * w. */
  lemma OffsetInRange(r: nat, h: nat, col: nat, w: nat)
    requires r < h && col < w
    ensures r * w + col < h * w
  {
    assert (r + 1) * w == r * w + w;
    MulMonotone(r + 1, h, w);
  }

  lemma IndexInRange(ch: nat, c: nat, r: nat, h: nat, col: nat, w: nat)
    requires ch < c && r < h && col < w
    ensures r * w + col < h * w
    ensures ch * (h * w) + (r * w + col) < c * (h * w)
  {
    OffsetInRange(r, h, col, w);
    OffsetInRange(ch, c, r * w + col, h * w);
  }

  /** Each channel's table has one row per pixel of the channel. */
  lemma ChannelBoundsLength(ch: seq<seq<real>>, eps: real, mean: real, std: real, h: nat, w: nat)
    requires std > 0.0
    requires |ch| == h && forall r :: 0 <= r < h ==> |ch[r]| == w
    ensures |ChannelBounds(ch, eps, mean, std)| == h * w
  {
    FlattenLength(PixelRows(ch, eps, mean, std), w);
  }

  /** Pixel (r, col) of a channel gives row r * w + col of the channel's table. */
  lemma ChannelBoundsAt(ch: seq<seq<real>>, eps: real, mean: real, std: real, h: nat, w: nat, r: nat, col: nat)
    requires std > 0.0
    requires |ch| == h && forall i :: 0 <= i < h ==> |ch[i]| == w
    requires r < h && col < w
    ensures r * w + col < |ChannelBounds(ch, eps, mean, std)|
    ensures ChannelBounds(ch, eps, mean, std)[r * w + col] == PixelBound(ch[r][col], eps, mean, std)
  {
    var rows := PixelRows(ch, eps, mean, std);
    FlattenAt(rows, w, r, col);
  }

  /** The table has C·H·W rows, and the pixel at (ch, r, col) gives the row
      at index j = ch·H·W + r·W + col (channel-major order). */
  lemma InputBoundsLayout(img: Image, eps: real, mean: seq<real>, std: seq<real>,
                          c: nat, h: nat, w: nat, ch: nat, r: nat, col: nat, j: nat)
    requires |mean| == |img| && |std| == |img| && PositiveStd(std)
    requires IsShaped(img, c, h, w)
    requires ch < c && r < h && col < w && j == ch * (h * w) + (r * w + col)
    ensures |CreateInputBounds(img, eps, mean, std)| == c * (h * w)
    ensures j < c * (h * w)
    ensures CreateInputBounds(img, eps, mean, std)[j] == PixelBound(img[ch][r][col], eps, mean[ch], std[ch])
  {
    var channels := ChannelTables(img, eps, mean, std);
    forall k | 0 <= k < c ensures |channels[k]| == h * w {
      ChannelBoundsLength(img[k], eps, mean[k], std[k], h, w);
    }
    FlattenLength(channels, h * w);
    IndexInRange(ch, c, r, h, col, w);
    FlattenAt(channels, h * w, ch, r * w + col);
    ChannelBoundsAt(img[ch], eps, mean[ch], std[ch], h, w, r, col);
  }

  /** Every row of the table is the row of some pixel of the image. */
  lemma RowOfSomePixel(img: Image, eps: real, mean: seq<real>, std: seq<real>, row: Bound)
    requires |mean| == |img| && |std| == |img| && PositiveStd(std)
    requires row in CreateInputBounds(img, eps, mean, std)
    ensures exists ch, r, col :: 0 <= ch < |img| && 0 <= r < |img[ch]| && 0 <= col < |img[ch][r]| &&
              row == PixelBound(img[ch][r][col], eps, mean[ch], std[ch])
  {
    var channels := ChannelTables(img, eps, mean, std);
    FlattenMember(channels, row);
    var ch, i :| 0 <= ch < |channels| && 0 <= i < |channels[ch]| && channels[ch][i] == row;
    var rows := PixelRows(img[ch], eps, mean[ch], std[ch]);
    assert row in Flatten(rows);
    FlattenMember(rows, row);
    var r, col :| 0 <= r < |rows| && 0 <= col < |rows[r]| && rows[r][col] == row;
    assert row == PixelBound(img[ch][r][col], eps, mean[ch], std[ch]);
  }

  /** Normalisation with a positive deviation preserves and reflects order. */
  lemma NormalizeMonotone(a: real, b: real, mean: real, std: real)
    requires std > 0.0
    ensures a <= b <==> Normalize(a, mean, std) <= Normalize(b, mean, std)
  {
    var na, nb := Normalize(a, mean, std), Normalize(b, mean, std);
    assert na * std == a - mean;
    assert nb * std == b - mean;
    if a <= b {
      assert (nb - na) * std == b - a;
    } else {
      assert (na - nb) * std == a - b;
    }
  }

  /** With eps >= 0 each pixel's lower bound does not exceed its upper bound. */
  lemma PixelBoundOrdered(p: real, eps: real, mean: real, std: real)
    requires std > 0.0 && eps >= 0.0
    ensures PixelBound(p, eps, mean, std).lower <= PixelBound(p, eps, mean, std).upper
  {
    NormalizeMonotone(Clip(p - eps, 0.0, 1.0), Clip(p + eps, 0.0, 1.0), mean, std);
  }

  /** With eps >= 0 every row of the table has lower <= upper. */
  lemma InputBoundsOrdered(img: Image, eps: real, mean: seq<real>, std: seq<real>)
    requires |mean| == |img| && |std| == |img| && PositiveStd(std)
    requires eps >= 0.0
    ensures forall i :: 0 <= i < |CreateInputBounds(img, eps, mean, std)| ==>
              CreateInputBounds(img, eps, mean, std)[i].lower <= CreateInputBounds(img, eps, mean, std)[i].upper
  {
    var b := CreateInputBounds(img, eps, mean, std);
    forall i | 0 <= i < |b| ensures b[i].lower <= b[i].upper {
      RowOfSomePixel(img, eps, mean, std, b[i]);
      var ch, r, col :| 0 <= ch < |img| && 0 <= r < |img[ch]| && 0 <= col < |img[ch][r]| &&
                        b[i] == PixelBound(img[ch][r][col], eps, mean[ch], std[ch]);
      PixelBoundOrdered(img[ch][r][col], eps, mean[ch], std[ch]);
    }
  }

  /** With eps = 0 every row is a single point: lower == upper. */
  lemma InputBoundsDegenerate(img: Image, mean: seq<real>, std: seq<real>)
    requires |mean| == |img| && |std| == |img| && PositiveStd(std)
    ensures forall i :: 0 <= i < |CreateInputBounds(img, 0.0, mean, std)| ==>
              CreateInputBounds(img, 0.0, mean, std)[i].lower == CreateInputBounds(img, 0.0, mean, std)[i].upper
  {
    var b := CreateInputBounds(img, 0.0, mean, std);
    forall i | 0 <= i < |b| ensures b[i].lower == b[i].upper {
      RowOfSomePixel(img, 0.0, mean, std, b[i]);
    }
  }

  /** For a pixel p in [0, 1] and eps >= 0, a normalised value lies within the
      pixel's row exactly when it is the normalisation of a raw value q that
      is itself a valid pixel value (in [0, 1]) within eps of p. So the row is
      precisely the normalised image of the perturbations the robustness
      property quantifies over. */
  lemma PixelBoundExact(p: real, eps: real, mean: real, std: real, q: real)
    requires std > 0.0 && eps >= 0.0 && 0.0 <= p <= 1.0
    ensures PixelBound(p, eps, mean, std).lower <= Normalize(q, mean, std) <= PixelBound(p, eps, mean, std).upper
            <==> 0.0 <= q <= 1.0 && p - eps <= q <= p + eps
  {
    NormalizeMonotone(Clip(p - eps, 0.0, 1.0), q, mean, std);
    NormalizeMonotone(q, Clip(p + eps, 0.0, 1.0), mean, std);
  }
}
