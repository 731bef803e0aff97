/** The pure and imperative logic of the room page (src/pages/index.js):
    the room slug taken from the location path, the decoder of the packed
    canvas and the filter on live pixel updates. */
module Canvas {
  import opened Wrappers

  /** A UTF-16 code unit, what `String.prototype.charCodeAt` returns. */
  type CodeUnit = c: int | 0 <= c < 0x1_0000

  /** A binary digit of the intermediate bit string. */
  type Bit = b: int | 0 <= b < 2

  /** Number of pixel colors a 5-bit group can take. */
  const PaletteSize: nat := 32

  function Pow2(k: nat): nat {
    if k == 0 then 1 else 2 * Pow2(k - 1)
  }

  function Min(a: int, b: int): int {
    if a <= b then a else b
  }

  // ---------------------------------------------------------------------
  // Binary digit strings
  // ---------------------------------------------------------------------

  /** The unsigned integer denoted by a big-endian digit string, as
      `parseInt(s, 2)` reads a string of binary digits. */
  function Value(s: seq<Bit>): nat {
    if s == [] then 0 else 2 * Value(s[..|s| - 1]) + s[|s| - 1]
  }

  lemma {:induction false} ValueBound(s: seq<Bit>)
    ensures Value(s) < Pow2(|s|)
  {
    if s != [] {
      ValueBound(s[..|s| - 1]);
    }
  }

  lemma ValueAppend(s: seq<Bit>, b: Bit)
    ensures Value(s + [b]) == 2 * Value(s) + b
  {
    assert (s + [b])[..|s|] == s;
  }

  function Zeros(k: nat): (r: seq<Bit>)
    ensures |r| == k && forall i :: 0 <= i < k ==> r[i] == 0
  {
    seq(k, _ => 0)
  }

  /** Leading zero digits do not change the value of a digit string. */
  lemma {:induction false} ValueLeadingZeros(k: nat, s: seq<Bit>)
    ensures Value(Zeros(k) + s) == Value(s)
    decreases |s|, k
  {
    if s == [] {
      assert Zeros(k) + s == Zeros(k);
      if k > 0 {
        assert Zeros(k)[..k - 1] == Zeros(k - 1) + [];
        ValueLeadingZeros(k - 1, []);
        assert Zeros(k - 1) + [] == Zeros(k - 1);
      }
    } else {
      var init := s[..|s| - 1];
      assert (Zeros(k) + s)[..|Zeros(k) + s| - 1] == Zeros(k) + init;
      ValueLeadingZeros(k, init);
    }
  }

  /** `n.toString(2)`: the binary digits of `n` without leading zeros, and
      the single digit 0 for zero. */
  function Binary(n: nat): (r: seq<Bit>)
    ensures |r| >= 1
    ensures Value(r) == n
    ensures n == 0 ==> r == [0]
    ensures n > 0 ==> r[0] == 1
  {
    if n < 2 then [n] else
      var high := Binary(n / 2);
      ValueAppend(high, n % 2);
      high + [n % 2]
  }

  /** A string of `k` digits has more values than `k`; in particular one
      digit already holds both 0 and 1. */
  lemma {:induction false} Pow2Exceeds(k: nat)
    ensures k < Pow2(k)
  {
    if k > 0 {
      Pow2Exceeds(k - 1);
    }
  }

  /** `toString(2)` needs at most `k` digits exactly for the numbers below 2^k. */
  lemma {:induction false} BinaryLength(n: nat, k: nat)
    requires k >= 1
    ensures |Binary(n)| <= k <==> n < Pow2(k)
  {
    if n >= 2 {
      if k == 1 {
        assert Pow2(1) == 2;
      } else {
        BinaryLength(n / 2, k - 1);
      }
    } else {
      Pow2Exceeds(k);
    }
  }

  /** `s.padStart(width, "0")`: zeros are added in front up to `width`
      digits; a longer string is returned unchanged, never truncated. */
  function PadStart(s: seq<Bit>, width: nat): (r: seq<Bit>)
    ensures |r| == if |s| >= width then |s| else width
    ensures r[|r| - |s|..] == s
    ensures forall i :: 0 <= i < |r| - |s| ==> r[i] == 0
    ensures Value(r) == Value(s)
  {
    if |s| >= width then s else
      ValueLeadingZeros(width - |s|, s);
      Zeros(width - |s|) + s
  }

  /** The bits one character contributes: `c.toString(2).padStart(8, "0")`. */
  function CharBits(c: CodeUnit): seq<Bit> {
    PadStart(Binary(c), 8)
  }

  /** A character's bits always denote its code unit; they take exactly
      eight digits iff the code unit is below 256, and more otherwise. */
  lemma CharBitsShape(c: CodeUnit)
    ensures Value(CharBits(c)) == c
    ensures |CharBits(c)| >= 8
    ensures |CharBits(c)| == 8 <==> c < 256
  {
    BinaryLength(c, 8);
    assert Pow2(8) == 256;
  }

  /** The joined bit string of the whole encoded canvas. */
  function Bits(encoded: seq<CodeUnit>): seq<Bit> {
    if encoded == [] then [] else CharBits(encoded[0]) + Bits(encoded[1..])
  }

  predicate AllBytes(encoded: seq<CodeUnit>) {
    forall i :: 0 <= i < |encoded| ==> encoded[i] < 256
  }

  /** Each character yields at least eight bits, and exactly eight for all
      of them iff every code unit is below 256. */
  lemma {:induction false} BitsLength(encoded: seq<CodeUnit>)
    ensures |Bits(encoded)| >= 8 * |encoded|
    ensures |Bits(encoded)| == 8 * |encoded| <==> AllBytes(encoded)
  {
    if encoded != [] {
      CharBitsShape(encoded[0]);
      BitsLength(encoded[1..]);
      if AllBytes(encoded[1..]) && encoded[0] < 256 {
        forall i | 0 <= i < |encoded| ensures encoded[i] < 256 {
          if i > 0 { assert encoded[i] == encoded[1..][i - 1]; }
        }
      }
      if AllBytes(encoded) {
        assert encoded[0] < 256;
        forall i | 0 <= i < |encoded| - 1 ensures encoded[1..][i] < 256 {
          assert encoded[1..][i] == encoded[i + 1];
        }
      }
    }
  }

  lemma SliceAfter<T>(a: seq<T>, b: seq<T>, lo: nat, hi: nat)
    requires |a| <= lo <= hi <= |a| + |b|
    ensures (a + b)[lo..hi] == b[lo - |a| .. hi - |a|]
  {
  }

  lemma AllBytesTail(encoded: seq<CodeUnit>)
    requires AllBytes(encoded) && encoded != []
    ensures AllBytes(encoded[1..]) && encoded[0] < 256
  {
    forall i | 0 <= i < |encoded| - 1 ensures encoded[1..][i] < 256 {
      assert encoded[1..][i] == encoded[i + 1];
    }
  }

  /** A one-byte first character contributes exactly the first eight bits. */
  lemma BitsHead(encoded: seq<CodeUnit>)
    requires encoded != [] && encoded[0] < 256
    ensures |CharBits(encoded[0])| == 8
    ensures Bits(encoded) == CharBits(encoded[0]) + Bits(encoded[1..])
  {
    CharBitsShape(encoded[0]);
  }

  lemma SliceBefore<T>(a: seq<T>, b: seq<T>)
    ensures (a + b)[..|a|] == a
  {
  }

  /** With one-byte code units, character `j` occupies bits `8j .. 8j+8`. */
  lemma {:induction false} FixedWidthSlice(encoded: seq<CodeUnit>, j: nat)
    requires AllBytes(encoded) && j < |encoded|
    ensures 8 * j + 8 <= |Bits(encoded)|
    ensures Bits(encoded)[8 * j .. 8 * j + 8] == CharBits(encoded[j])
  {
    AllBytesTail(encoded);
    BitsHead(encoded);
    var head, tail := CharBits(encoded[0]), Bits(encoded[1..]);
    if j == 0 {
      SliceBefore(head, tail);
    } else {
      FixedWidthSlice(encoded[1..], j - 1);
      assert encoded[1..][j - 1] == encoded[j];
      SliceAfter(head, tail, 8 * j, 8 * j + 8);
    }
  }

  /** ... and those eight bits denote its code unit. */
  lemma FixedWidthChar(encoded: seq<CodeUnit>, j: nat)
    requires AllBytes(encoded) && j < |encoded|
    ensures 8 * j + 8 <= |Bits(encoded)|
    ensures Value(Bits(encoded)[8 * j .. 8 * j + 8]) == encoded[j]
  {
    FixedWidthSlice(encoded, j);
    CharBitsShape(encoded[j]);
  }

  // ---------------------------------------------------------------------
  // The 5-bit group decoder
  // ---------------------------------------------------------------------

  /** Every complete 5-bit group of a bit string, in order: group `k` is
      the unsigned value of bits `5k .. 5k+5`, a color index below 32. */
  function Groups(bits: seq<Bit>): (r: seq<nat>)
    ensures |r| == |bits| / 5
    ensures forall k :: 0 <= k < |r| ==> r[k] == Value(bits[5 * k .. 5 * k + 5])
    ensures forall k :: 0 <= k < |r| ==> r[k] < PaletteSize
    decreases |bits|
  {
    if |bits| < 5 then [] else
      ValueBound(bits[..5]);
      assert Pow2(5) == 32;
      var rest := Groups(bits[5..]);
      assert forall k :: 1 <= k < |rest| + 1 ==>
        bits[5..][5 * (k - 1) .. 5 * (k - 1) + 5] == bits[5 * k .. 5 * k + 5];
      [Value(bits[..5])] + rest
  }

  /** What the decoder produces: the groups of the joined bit string, cut at
      the canvas capacity `canvasDimensions ** 2`. */
  function Decoded(encoded: seq<CodeUnit>, canvasDimensions: nat): seq<nat> {
    var groups := Groups(Bits(encoded));
    groups[..Min(canvasDimensions * canvasDimensions, |groups|)]
  }

  /** The decode part of `init`: total on every input, the pixel count is
      the capacity or the number of complete 5-bit groups, whichever is
      smaller, and pixel `k` is the value of bits `5k .. 5k+5`. */
  method DecodePixels(encoded: seq<CodeUnit>, canvasDimensions: nat) returns (pixels: seq<nat>)
    ensures pixels == Decoded(encoded, canvasDimensions)
    ensures |pixels| == Min(canvasDimensions * canvasDimensions, |Bits(encoded)| / 5)
    ensures forall k :: 0 <= k < |pixels| ==>
      pixels[k] < PaletteSize && pixels[k] == Value(Bits(encoded)[5 * k .. 5 * k + 5])
  {
    var bits := Bits(encoded);
    var maxPx := canvasDimensions * canvasDimensions;
    pixels := ReadGroups(bits, maxPx);
    DecodedShape(encoded, canvasDimensions);
  }

  /** The `for` loop of the decoder: reads 5-bit groups from the front while
      a whole group remains and fewer than `maxPx` pixels were produced. */
  method ReadGroups(bits: seq<Bit>, maxPx: nat) returns (pixels: seq<nat>)
    ensures pixels == Groups(bits)[..Min(maxPx, |bits| / 5)]
  {
    ghost var groups := Groups(bits);
    pixels := [];
    var i := 0;
    while i + 5 <= |bits| && |pixels| < maxPx
      invariant i == 5 * |pixels| && i <= |bits|
      invariant |pixels| <= maxPx
      invariant pixels == groups[..|pixels|]
    {
      var value := Value(bits[i .. i + 5]);
      GroupAt(bits, |pixels|);
      TakeSnoc(groups, |pixels|);
      assert value == groups[|pixels|];
      pixels := pixels + [value];
      i := i + 5;
    }
    if i + 5 > |bits| {
      GroupCount(|bits|, |pixels|);
    }
  }

  lemma DecodedShape(encoded: seq<CodeUnit>, canvasDimensions: nat)
    ensures |Decoded(encoded, canvasDimensions)| == Min(canvasDimensions * canvasDimensions, |Bits(encoded)| / 5)
    ensures forall k :: 0 <= k < |Decoded(encoded, canvasDimensions)| ==>
      Decoded(encoded, canvasDimensions)[k] < PaletteSize &&
      Decoded(encoded, canvasDimensions)[k] == Value(Bits(encoded)[5 * k .. 5 * k + 5])
  {
  }

  lemma GroupAt(bits: seq<Bit>, k: nat)
    requires 5 * k + 5 <= |bits|
    ensures k < |Groups(bits)| && Groups(bits)[k] == Value(bits[5 * k .. 5 * k + 5])
  {
  }

  lemma TakeSnoc<T>(s: seq<T>, n: nat)
    requires n < |s|
    ensures s[..n + 1] == s[..n] + [s[n]]
  {
  }

  lemma GroupCount(n: nat, p: nat)
    requires 5 * p <= n < 5 * p + 5
    ensures n / 5 == p
  {
  }

  /** A larger canvas never changes the pixels already decoded for a
      smaller one: it only extends them. */
  lemma DecodedMonotone(encoded: seq<CodeUnit>, small: nat, large: nat)
    requires small <= large
    ensures |Decoded(encoded, small)| <= |Decoded(encoded, large)|
    ensures Decoded(encoded, small) == Decoded(encoded, large)[..|Decoded(encoded, small)|]
  {
    SquareMonotone(small, large);
    var groups := Groups(Bits(encoded));
    TakeMonotone(groups, small * small, large * large);
  }

  lemma SquareMonotone(small: nat, large: nat)
    requires small <= large
    ensures small * small <= large * large
  {
    assert small * small <= small * large <= large * large;
  }

  lemma TakeMonotone<T>(s: seq<T>, a: int, b: int)
    requires a <= b
    ensures Min(a, |s|) <= Min(b, |s|)
    ensures 0 <= Min(a, |s|) ==> s[..Min(a, |s|)] == s[..Min(b, |s|)][..Min(a, |s|)]
  {
  }

  /** With one-byte code units the decoder yields `floor(8n / 5)` pixels
      when the canvas is large enough, and pixel `k` is read from bits
      `5k .. 5k+5` of the eight-bit renderings. */
  lemma DecodedFixedWidth(encoded: seq<CodeUnit>, canvasDimensions: nat)
    requires AllBytes(encoded)
    ensures |Decoded(encoded, canvasDimensions)| == Min(canvasDimensions * canvasDimensions, 8 * |encoded| / 5)
    ensures forall k :: 0 <= k < |Decoded(encoded, canvasDimensions)| ==>
      5 * k + 5 <= 8 * |encoded| &&
      Decoded(encoded, canvasDimensions)[k] == Value(Bits(encoded)[5 * k .. 5 * k + 5])
  {
    DecodedShape(encoded, canvasDimensions);
    BitsLength(encoded);
  }

  /** Code units 5 and 3 give the bits 00000101 00000011, read as the groups
      00000, 10100, 00001 and a trailing 1 that is dropped. */
  lemma DecodeExample(encoded: seq<CodeUnit>, canvasDimensions: nat)
    requires encoded == [5, 3] && canvasDimensions >= 2
    ensures Decoded(encoded, canvasDimensions) == [0, 20, 1]
  {
    ExampleBits(encoded);
    ExampleGroups();
    SquareMonotone(2, canvasDimensions);
  }

  lemma GroupsCons(bits: seq<Bit>)
    requires |bits| >= 5
    ensures Groups(bits) == [Value(bits[..5])] + Groups(bits[5..])
  {
  }

  lemma ValueOfFive(b0: Bit, b1: Bit, b2: Bit, b3: Bit, b4: Bit)
    ensures Value([b0, b1, b2, b3, b4]) == 16 * b0 + 8 * b1 + 4 * b2 + 2 * b3 + b4
  {
    var s1, s2, s3, s4, s5 := [b0], [b0, b1], [b0, b1, b2], [b0, b1, b2, b3], [b0, b1, b2, b3, b4];
    assert s1 == [] + [b0] && s2 == s1 + [b1] && s3 == s2 + [b2];
    assert s4 == s3 + [b3] && s5 == s4 + [b4];
    ValueAppend([], b0);
    ValueAppend(s1, b1);
    ValueAppend(s2, b2);
    ValueAppend(s3, b3);
    ValueAppend(s4, b4);
  }

  lemma ExampleGroups()
    ensures Groups([0, 0, 0, 0, 0, 1, 0, 1, 0, 0, 0, 0, 0, 0, 1, 1]) == [0, 20, 1]
  {
    var g1: seq<Bit> := [0, 0, 0, 0, 0, 1, 0, 1, 0, 0, 0, 0, 0, 0, 1, 1];
    var g2: seq<Bit> := [1, 0, 1, 0, 0, 0, 0, 0, 0, 1, 1];
    var g3: seq<Bit> := [0, 0, 0, 0, 1, 1];
    GroupsCons(g1);
    assert g1[5..] == g2 && g1[..5] == [0, 0, 0, 0, 0];
    GroupsCons(g2);
    assert g2[5..] == g3 && g2[..5] == [1, 0, 1, 0, 0];
    GroupsCons(g3);
    assert g3[5..] == [1] && g3[..5] == [0, 0, 0, 0, 1];
    assert Groups([1]) == [];
    ValueOfFive(0, 0, 0, 0, 0);
    ValueOfFive(1, 0, 1, 0, 0);
    ValueOfFive(0, 0, 0, 0, 1);
    assert Groups(g3) == [1];
    assert Groups(g2) == [20, 1];
  }

  lemma ExampleBinary()
    ensures Binary(5) == [1, 0, 1] && Binary(3) == [1, 1]
  {
    assert Binary(1) == [1];
    assert Binary(2) == Binary(1) + [0];
    assert Binary(5) == Binary(2) + [1];
    assert Binary(3) == Binary(1) + [1];
  }

  lemma ExampleCharBits()
    ensures CharBits(5) == [0, 0, 0, 0, 0, 1, 0, 1]
    ensures CharBits(3) == [0, 0, 0, 0, 0, 0, 1, 1]
  {
    ExampleBinary();
    assert Zeros(5) == [0, 0, 0, 0, 0];
    assert Zeros(6) == [0, 0, 0, 0, 0, 0];
  }

  lemma BitsPair(encoded: seq<CodeUnit>)
    requires |encoded| == 2
    ensures Bits(encoded) == CharBits(encoded[0]) + CharBits(encoded[1])
  {
    var rest := encoded[1..];
    assert rest[0] == encoded[1] && rest[1..] == [];
    assert Bits(rest) == CharBits(encoded[1]) + [];
  }

  lemma ExampleBits(encoded: seq<CodeUnit>)
    requires encoded == [5, 3]
    ensures Bits(encoded) == [0, 0, 0, 0, 0, 1, 0, 1, 0, 0, 0, 0, 0, 0, 1, 1]
  {
    BitsPair(encoded);
    ExampleCharBits();
  }

  // ---------------------------------------------------------------------
  // Room slug
  // ---------------------------------------------------------------------

  /** The room used when the path names none. */
  const DefaultRoom: string := "epi-place"

  /** `s.split("/")`: the pieces between separators, in order; the empty
      string splits into one empty piece. */
  function Split(s: string): (r: seq<string>)
    ensures |r| >= 1
    ensures forall i :: 0 <= i < |r| ==> '/' !in r[i]
  {
    if s == [] then [""]
    else if s[0] == '/' then [""] + Split(s[1..])
    else
      var rest := Split(s[1..]);
      [[s[0]] + rest[0]] + rest[1..]
  }

  /** Joins pieces back with `/` between them, as `Array.prototype.join("/")`. */
  function Join(pieces: seq<string>): string
    requires |pieces| >= 1
  {
    pieces[0] + JoinTail(pieces[1..])
  }

  function JoinTail(pieces: seq<string>): string {
    if pieces == [] then [] else "/" + pieces[0] + JoinTail(pieces[1..])
  }

  /** Splitting loses nothing: joining the pieces with `/` gives the path back. */
  lemma {:induction false} SplitJoin(s: string)
    ensures Join(Split(s)) == s
  {
    if s != [] {
      SplitJoin(s[1..]);
      var rest := Split(s[1..]);
      if s[0] == '/' {
        assert Split(s)[1..] == rest;
      } else {
        assert Split(s)[1..] == rest[1..];
        assert s == [s[0]] + s[1..];
      }
    }
  }

  /** `filter((segment) => segment.length > 0)`: exactly the non-empty
      pieces survive, and the first survivor is the first non-empty piece. */
  function NonEmpty(pieces: seq<string>): (r: seq<string>)
    ensures forall i :: 0 <= i < |r| ==> r[i] != [] && r[i] in pieces
    ensures forall i :: 0 <= i < |pieces| && pieces[i] != [] ==> pieces[i] in r
    ensures r != [] ==> exists j :: 0 <= j < |pieces| && r[0] == pieces[j] && forall i :: 0 <= i < j ==> pieces[i] == []
    ensures r == [] ==> forall i :: 0 <= i < |pieces| ==> pieces[i] == []
  {
    if pieces == [] then []
    else if pieces[0] == [] then NonEmpty(pieces[1..])
    else [pieces[0]] + NonEmpty(pieces[1..])
  }

  lemma NonEmptySingle(x: string)
    ensures NonEmpty([x]) == (if x == [] then [] else [x])
  {
    assert [x][1..] == [];
  }

  /** The filter distributes over concatenation. */
  lemma {:induction false} NonEmptyConcat(a: seq<string>, b: seq<string>)
    ensures NonEmpty(a + b) == NonEmpty(a) + NonEmpty(b)
  {
    if a == [] {
      assert a + b == b;
    } else {
      var ab := a + b;
      assert ab != [] && ab[0] == a[0];
      assert ab[1..] == a[1..] + b;
      NonEmptyConcat(a[1..], b);
    }
  }

  /** The filter keeps order and multiplicity: it distributes over
      concatenation and keeps a single piece exactly when it is non-empty. */
  lemma NonEmptyAppend(a: seq<string>, b: seq<string>)
    ensures NonEmpty(a + b) == NonEmpty(a) + NonEmpty(b)
    ensures forall x: string :: NonEmpty([x]) == (if x == [] then [] else [x])
  {
    NonEmptyConcat(a, b);
    forall x: string
      ensures NonEmpty([x]) == (if x == [] then [] else [x])
    {
      NonEmptySingle(x);
    }
  }

  /** `getRoomSlug`, over `window.location.pathname` passed in. */
  function RoomSlug(pathname: string): (slug: string)
    ensures slug != [] && '/' !in slug
  {
    var segments := NonEmpty(Split(pathname));
    if |segments| > 0 then segments[0] else DefaultRoom
  }

  // An independent reading of "the first non-empty segment": skip the
  // leading separators, then take characters up to the next separator.

  function SkipSlashes(s: string): (r: string)
    ensures r == [] || r[0] != '/'
  {
    if s != [] && s[0] == '/' then SkipSlashes(s[1..]) else s
  }

  function TakeSegment(s: string): string {
    if s == [] || s[0] == '/' then [] else [s[0]] + TakeSegment(s[1..])
  }

  lemma {:induction false} SplitHead(s: string)
    ensures Split(s)[0] == TakeSegment(s)
  {
    if s != [] && s[0] != '/' {
      SplitHead(s[1..]);
    }
  }

  lemma {:induction false} FirstNonEmpty(s: string)
    ensures NonEmpty(Split(s)) == [] <==> SkipSlashes(s) == []
    ensures SkipSlashes(s) != [] ==> NonEmpty(Split(s))[0] == TakeSegment(SkipSlashes(s))
  {
    if s != [] {
      if s[0] == '/' {
        FirstNonEmpty(s[1..]);
        assert Split(s)[1..] == Split(s[1..]);
      } else {
        var rest := Split(s[1..]);
        SplitHead(s[1..]);
        assert Split(s)[1..] == rest[1..];
      }
    }
  }

  /** The slug is the first non-empty `/`-separated segment of the path, or
      the default room when the path holds nothing but separators. */
  lemma RoomSlugIsFirstSegment(pathname: string)
    ensures RoomSlug(pathname) ==
      if SkipSlashes(pathname) == [] then DefaultRoom else TakeSegment(SkipSlashes(pathname))
    ensures RoomSlug(pathname) == DefaultRoom <==>
      (forall i :: 0 <= i < |pathname| ==> pathname[i] == '/') || TakeSegment(SkipSlashes(pathname)) == DefaultRoom
  {
    FirstNonEmpty(pathname);
    AllSlashes(pathname);
  }

  lemma {:induction false} AllSlashes(s: string)
    ensures SkipSlashes(s) == [] <==> forall i :: 0 <= i < |s| ==> s[i] == '/'
  {
    if s != [] && s[0] == '/' {
      AllSlashes(s[1..]);
      assert forall i :: 1 <= i < |s| ==> s[i] == s[1..][i - 1];
    }
  }

  // ---------------------------------------------------------------------
  // Live pixel updates
  // ---------------------------------------------------------------------

  /** The payload `msg.result.data.json` of a `pixel-update` event. */
  datatype PixelUpdate = PixelUpdate(roomSlug: string, color: int, posX: int, posY: int)

  /** A call `renderCanvasUpdate(color, posX, posY)`. */
  datatype Draw = Draw(color: int, posX: int, posY: int)

  /** The `pixel-update` handler: it draws the update exactly when it is
      for the subscribed room, and does nothing otherwise. */
  function OnPixelUpdate(update: PixelUpdate, subscribed: string): (r: Option<Draw>)
    ensures r.Some? <==> update.roomSlug == subscribed
    ensures r.Some? ==> r.value == Draw(update.color, update.posX, update.posY)
  {
    if update.roomSlug == subscribed then Some(Draw(update.color, update.posX, update.posY)) else None
  }

  /** The draw calls made for a sequence of delivered updates. */
  function DrawTrace(updates: seq<PixelUpdate>, subscribed: string): seq<Draw> {
    if updates == [] then []
    else
      var last := updates[|updates| - 1];
      var before := DrawTrace(updates[..|updates| - 1], subscribed);
      match OnPixelUpdate(last, subscribed)
      case Some(d) => before + [d]
      case None => before
  }

  lemma {:induction false} DrawTraceAppend(a: seq<PixelUpdate>, b: seq<PixelUpdate>, subscribed: string)
    ensures DrawTrace(a + b, subscribed) == DrawTrace(a, subscribed) + DrawTrace(b, subscribed)
    decreases |b|
  {
    if b == [] {
      assert a + b == a;
    } else {
      var init := b[..|b| - 1];
      assert (a + b)[..|a + b| - 1] == a + init;
      DrawTraceAppend(a, init, subscribed);
    }
  }

  /** Updates for other rooms are invisible: removing one from anywhere in
      the delivered stream leaves the draw calls unchanged. */
  lemma OtherRoomIgnored(a: seq<PixelUpdate>, u: PixelUpdate, b: seq<PixelUpdate>, subscribed: string)
    requires u.roomSlug != subscribed
    ensures DrawTrace(a + [u] + b, subscribed) == DrawTrace(a + b, subscribed)
  {
    DrawTraceAppend(a + [u], b, subscribed);
    DrawTraceAppend(a, [u], subscribed);
    DrawTraceAppend(a, b, subscribed);
    assert [u][..0] == [];
  }

  /** Every draw call comes from an update for the subscribed room; when
      every update is for that room, draw call `i` is update `i`. */
  lemma {:induction false} DrawTraceSound(updates: seq<PixelUpdate>, subscribed: string)
    ensures |DrawTrace(updates, subscribed)| <= |updates|
    ensures forall d :: d in DrawTrace(updates, subscribed) ==>
      exists i :: 0 <= i < |updates| && updates[i].roomSlug == subscribed &&
        d == Draw(updates[i].color, updates[i].posX, updates[i].posY)
    ensures (forall i :: 0 <= i < |updates| ==> updates[i].roomSlug == subscribed) ==>
      && |DrawTrace(updates, subscribed)| == |updates|
      && forall i :: 0 <= i < |updates| ==>
           DrawTrace(updates, subscribed)[i] == Draw(updates[i].color, updates[i].posX, updates[i].posY)
  {
    if updates != [] {
      var n := |updates| - 1;
      var init := updates[..n];
      DrawTraceSound(init, subscribed);
      assert forall i :: 0 <= i < n ==> init[i] == updates[i];
    }
  }
}
