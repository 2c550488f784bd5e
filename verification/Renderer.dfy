/** Splicing rendered image placeholders into a token stream. */
module Renderer {
  import opened Collections

  datatype Chunk = Text(tokens: seq<int>) | Image(expected: Option<nat>)

  datatype Range = Range(offset: nat, length: nat)

  datatype Failure = WrongCount(expected: nat, got: nat) | WrongLength(image: nat)

  datatype Rendered = Rendered(tokens: seq<int>, ranges: seq<Range>)

  /** The render endpoint's answer: one token stream and where each image's placeholder lies in it. */
  datatype Response = Response(tokens: seq<int>, placeholders: seq<Range>)

  /** The text-only rendering: images contribute nothing. */
  function TextOnly(chunks: seq<Chunk>): seq<int> {
    if chunks == [] then []
    else
      var n := |chunks| - 1;
      TextOnly(chunks[..n]) + if chunks[n].Text? then chunks[n].tokens else []
  }

  function Images(chunks: seq<Chunk>): seq<Chunk> {
    if chunks == [] then []
    else
      var n := |chunks| - 1;
      Images(chunks[..n]) + if chunks[n].Image? then [chunks[n]] else []
  }

  /** Text chunks and placeholder streams interleaved in the order of the chunks. */
  function Assembled(chunks: seq<Chunk>, images: seq<seq<int>>): seq<int>
    requires |images| == |Images(chunks)|
  {
    if chunks == [] then []
    else
      var n := |chunks| - 1;
      if chunks[n].Text? then Assembled(chunks[..n], images) + chunks[n].tokens
      else Assembled(chunks[..n], images[..|images| - 1]) + images[|images| - 1]
  }

  lemma {:induction false} TextConcat(xs: seq<Chunk>, ys: seq<Chunk>)
    ensures TextOnly(xs + ys) == TextOnly(xs) + TextOnly(ys)
    decreases |ys|
  {
    if ys == [] {
      assert xs + ys == xs;
    } else {
      var n := |ys| - 1;
      assert (xs + ys)[..|xs| + n] == xs + ys[..n];
      TextConcat(xs, ys[..n]);
    }
  }

  lemma {:induction false} ImagesConcat(xs: seq<Chunk>, ys: seq<Chunk>)
    ensures Images(xs + ys) == Images(xs) + Images(ys)
    decreases |ys|
  {
    if ys == [] {
      assert xs + ys == xs;
    } else {
      var n := |ys| - 1;
      assert (xs + ys)[..|xs| + n] == xs + ys[..n];
      ImagesConcat(xs, ys[..n]);
    }
  }

  lemma OneMoreText(xs: seq<Chunk>, chunk: Chunk, images: seq<seq<int>>)
    requires chunk.Text? && |images| == |Images(xs)|
    ensures Images(xs + [chunk]) == Images(xs)
    ensures Assembled(xs + [chunk], images) == Assembled(xs, images) + chunk.tokens
  {
    assert (xs + [chunk])[..|xs|] == xs;
  }

  lemma OneMoreImage(xs: seq<Chunk>, chunk: Chunk, images: seq<seq<int>>, image: seq<int>)
    requires chunk.Image? && |images| == |Images(xs)|
    ensures Images(xs + [chunk]) == Images(xs) + [chunk]
    ensures Assembled(xs + [chunk], images + [image]) == Assembled(xs, images) + image
  {
    assert (xs + [chunk])[..|xs|] == xs && (images + [image])[..|images|] == images;
  }

  lemma Associate<T>(x: seq<T>, y: seq<T>, z: seq<T>)
    ensures x + (y + z) == (x + y) + z
  {
  }

  /** Streams are assembled piece by piece, each piece from its own images. */
  lemma {:induction false} AssembledConcat(xs: seq<Chunk>, ys: seq<Chunk>, of: seq<seq<int>>, more: seq<seq<int>>)
    requires |of| == |Images(xs)| && |more| == |Images(ys)|
    ensures |of + more| == |Images(xs + ys)|
    ensures Assembled(xs + ys, of + more) == Assembled(xs, of) + Assembled(ys, more)
    decreases |ys|
  {
    ImagesConcat(xs, ys);
    if ys == [] {
      assert xs + ys == xs && of + more == of;
    } else {
      var n := |ys| - 1;
      var front, chunk := ys[..n], ys[n];
      assert ys == front + [chunk];
      Associate(xs, front, [chunk]);
      ImagesConcat(xs, front);
      if chunk.Text? {
        OneMoreText(front, chunk, more);
        AssembledConcat(xs, front, of, more);
        OneMoreText(xs + front, chunk, of + more);
        Associate(Assembled(xs, of), Assembled(front, more), chunk.tokens);
      } else {
        var before, image := more[..|more| - 1], more[|more| - 1];
        assert more == before + [image];
        OneMoreImage(front, chunk, before, image);
        AssembledConcat(xs, front, of, before);
        OneMoreImage(xs + front, chunk, of + before, image);
        Associate(of, before, [image]);
        Associate(Assembled(xs, of), Assembled(front, before), image);
      }
    }
  }

  /** A piece of text is itself, and an image is the tokens it was rendered to. */
  lemma OnePiece(chunk: Chunk, image: seq<int>)
    ensures chunk.Text? ==> TextOnly([chunk]) == chunk.tokens && Images([chunk]) == []
    ensures chunk.Text? ==> Assembled([chunk], []) == chunk.tokens
    ensures chunk.Image? ==> TextOnly([chunk]) == [] && Images([chunk]) == [chunk]
    ensures chunk.Image? ==> Assembled([chunk], [image]) == image
  {
    assert [chunk][..0] == [];
  }

  /** Non-overlapping, in order, inside a stream of this length. */
  predicate InOrder(ranges: seq<Range>, len: nat) {
    && (forall i | 0 <= i < |ranges| :: ranges[i].offset + ranges[i].length <= len)
    && (forall i, j | 0 <= i < j < |ranges| :: ranges[i].offset + ranges[i].length <= ranges[j].offset)
  }

  predicate Recovers(r: Rendered, images: seq<seq<int>>) {
    && InOrder(r.ranges, |r.tokens|) && |images| == |r.ranges|
    && forall i | 0 <= i < |images| ::
       r.tokens[r.ranges[i].offset..r.ranges[i].offset + r.ranges[i].length] == images[i]
  }

  /** The stream with all ranges cut out, the last one first so that earlier offsets stay right. */
  function CutOut(tokens: seq<int>, ranges: seq<Range>): seq<int>
    requires InOrder(ranges, |tokens|)
    decreases |ranges|
  {
    if ranges == [] then tokens
    else
      var n := |ranges| - 1;
      var last := ranges[n];
      CutOut(tokens[..last.offset] + tokens[last.offset + last.length..], ranges[..n])
  }

  lemma {:induction false} CutOutAppend(tokens: seq<int>, ranges: seq<Range>, more: seq<int>)
    requires InOrder(ranges, |tokens|)
    ensures InOrder(ranges, |tokens + more|) && CutOut(tokens + more, ranges) == CutOut(tokens, ranges) + more
    decreases |ranges|
  {
    if ranges == [] {
    } else {
      var n := |ranges| - 1;
      var last := ranges[n];
      var rest := tokens[..last.offset] + tokens[last.offset + last.length..];
      CutOutAppend(rest, ranges[..n], more);
      assert (tokens + more)[..last.offset] + (tokens + more)[last.offset + last.length..] == rest + more;
    }
  }

  lemma CutOutImage(tokens: seq<int>, ranges: seq<Range>, image: seq<int>)
    requires InOrder(ranges, |tokens|)
    ensures var more := ranges + [Range(|tokens|, |image|)];
      InOrder(more, |tokens + image|) && CutOut(tokens + image, more) == CutOut(tokens, ranges)
  {
    var more := ranges + [Range(|tokens|, |image|)];
    assert more[..|ranges|] == ranges;
    assert (tokens + image)[..|tokens|] + (tokens + image)[|tokens| + |image|..] == tokens;
  }

  lemma {:induction false} ImageCount(chunks: seq<Chunk>, k: nat)
    requires k <= |chunks|
    ensures |Images(chunks[..k])| <= |Images(chunks)|
    ensures k < |chunks| && chunks[k].Image? ==> |Images(chunks[..k])| < |Images(chunks)|
    decreases |chunks|
  {
    if k == |chunks| {
      assert chunks[..k] == chunks;
    } else {
      var n := |chunks| - 1;
      if k < n {
        ImageCount(chunks[..n], k);
        assert chunks[..n][..k] == chunks[..k];
      }
    }
  }

  /** What the assembly promises, of any input. */
  predicate SplicedFrom(chunks: seq<Chunk>, images: seq<seq<int>>, r: Rendered) {
    && |images| == |Images(chunks)| && r.tokens == Assembled(chunks, images)
    && Recovers(r, images) && CutOut(r.tokens, r.ranges) == TextOnly(chunks)
  }

  lemma SpliceText(before: seq<Chunk>, chunk: Chunk, images: seq<seq<int>>, r: Rendered)
    requires SplicedFrom(before, images, r) && chunk.Text?
    ensures SplicedFrom(before + [chunk], images, Rendered(r.tokens + chunk.tokens, r.ranges))
  {
    assert (before + [chunk])[..|before|] == before;
    CutOutAppend(r.tokens, r.ranges, chunk.tokens);
    TextKeepsRanges(r.tokens, r.ranges, images, chunk.tokens);
  }

  lemma SpliceImage(before: seq<Chunk>, chunk: Chunk, images: seq<seq<int>>, image: seq<int>, r: Rendered)
    requires SplicedFrom(before, images, r) && chunk.Image?
    ensures SplicedFrom(before + [chunk], images + [image],
                        Rendered(r.tokens + image, r.ranges + [Range(|r.tokens|, |image|)]))
  {
    assert (before + [chunk])[..|before|] == before;
    assert (images + [image])[..|images|] == images;
    CutOutImage(r.tokens, r.ranges, image);
    ImageAddsRange(r.tokens, r.ranges, images, image);
  }

  /** One round of the assembly: text is appended; an image's tokens are appended and their range recorded. */
  method AssembleChunk(ghost before: seq<Chunk>, chunk: Chunk, images: seq<seq<int>>, next: nat, r: Rendered)
    returns (next': nat, r': Rendered)
    requires next <= |images| && (chunk.Image? ==> next < |images|) && SplicedFrom(before, images[..next], r)
    ensures next' <= |images| && SplicedFrom(before + [chunk], images[..next'], r')
  {
    if chunk.Text? {
      SpliceText(before, chunk, images[..next], r);
      next', r' := next, Rendered(r.tokens + chunk.tokens, r.ranges);
    } else {
      var image := images[next];
      SpliceImage(before, chunk, images[..next], image, r);
      assert images[..next + 1] == images[..next] + [image];
      next', r' := next + 1, Rendered(r.tokens + image, r.ranges + [Range(|r.tokens|, |image|)]);
    }
  }

  lemma ImagesLeft(chunks: seq<Chunk>, k: nat, images: seq<seq<int>>, next: nat, r: Rendered)
    requires |images| == |Images(chunks)| && k < |chunks| && next <= |images|
      && SplicedFrom(chunks[..k], images[..next], r)
    ensures chunks[k].Image? ==> next < |images|
    ensures chunks[..k + 1] == chunks[..k] + [chunks[k]]
  {
    ImageCount(chunks, k);
  }

  lemma AllSpliced(chunks: seq<Chunk>, images: seq<seq<int>>, next: nat, r: Rendered)
    requires |images| == |Images(chunks)| && next <= |images| && SplicedFrom(chunks, images[..next], r)
    ensures SplicedFrom(chunks, images, r)
  {
    assert images[..next] == images;
  }

  /** The assembly loop.  The recorded ranges are ordered, disjoint and in bounds; each holds its image's tokens;
      and cutting all of them out leaves exactly the text-only rendering. */
  method Assemble(chunks: seq<Chunk>, images: seq<seq<int>>) returns (r: Rendered)
    requires |images| == |Images(chunks)|
    ensures SplicedFrom(chunks, images, r)
  {
    r := Rendered([], []);
    var next: nat, k: nat := 0, 0;
    while k < |chunks|
      invariant k <= |chunks| && next <= |images| && SplicedFrom(chunks[..k], images[..next], r)
    {
      ImagesLeft(chunks, k, images, next, r);
      next, r := AssembleChunk(chunks[..k], chunks[k], images, next, r);
      k := k + 1;
    }
    assert chunks[..k] == chunks;
    AllSpliced(chunks, images, next, r);
  }

  lemma TextKeepsRanges(tokens: seq<int>, ranges: seq<Range>, images: seq<seq<int>>, more: seq<int>)
    requires Recovers(Rendered(tokens, ranges), images)
    ensures Recovers(Rendered(tokens + more, ranges), images)
  {
    forall i | 0 <= i < |images|
      ensures (tokens + more)[ranges[i].offset..ranges[i].offset + ranges[i].length] == images[i]
    {
      var lo, hi := ranges[i].offset, ranges[i].offset + ranges[i].length;
      assert (tokens + more)[lo..hi] == tokens[lo..hi];
    }
  }

  lemma ImageAddsRange(tokens: seq<int>, ranges: seq<Range>, images: seq<seq<int>>, image: seq<int>)
    requires Recovers(Rendered(tokens, ranges), images)
    ensures Recovers(Rendered(tokens + image, ranges + [Range(|tokens|, |image|)]), images + [image])
  {
    TextKeepsRanges(tokens, ranges, images, image);
  }

  /** A slice that stops at the end of the stream. */
  function Clamped(tokens: seq<int>, r: Range): (s: seq<int>)
    ensures r.offset + r.length <= |tokens| ==> s == tokens[r.offset..r.offset + r.length]
    ensures r.offset <= |tokens| < r.offset + r.length ==> s == tokens[r.offset..]
    ensures |tokens| <= r.offset ==> s == []
  {
    var lo := if r.offset < |tokens| then r.offset else |tokens|;
    var hi := if r.offset + r.length < |tokens| then r.offset + r.length else |tokens|;
    tokens[lo..hi]
  }

  predicate LengthsAgree(images: seq<Chunk>, placeholders: seq<Range>) {
    && |images| == |placeholders|
    && forall i | 0 <= i < |images| ::
         images[i].Image? && images[i].expected.Some? ==> images[i].expected.value == placeholders[i].length
  }

  /** What the endpoint gave for each image; it must give one placeholder each, of the expected length. */
  method RenderImages(images: seq<Chunk>, response: Response) returns (r: Result<seq<seq<int>>, Failure>)
    requires forall c | c in images :: c.Image?
    ensures r.Ok? <==> |images| == |response.placeholders| && forall i | 0 <= i < |images| ::
      images[i].expected == None || images[i].expected == Some(response.placeholders[i].length)
    ensures r.Err? && r.reason.WrongLength? ==> var i := r.reason.image;
      i < |images| == |response.placeholders| && images[i].expected.Some?
      && images[i].expected.value != response.placeholders[i].length
    ensures r.Ok? ==> r.value == seq(|images|, i requires 0 <= i < |images| && |response.placeholders| == |images| =>
                                       Clamped(response.tokens, response.placeholders[i]))
    ensures r.Err? && r.reason.WrongCount? <==> |response.placeholders| != |images|
  {
    if |response.placeholders| != |images| {
      return Err(WrongCount(|images|, |response.placeholders|));
    }
    var out := [];
    for i := 0 to |images|
      invariant |out| == i && forall j | 0 <= j < i :: out[j] == Clamped(response.tokens, response.placeholders[j])
      invariant forall j | 0 <= j < i ::
        images[j].Image? && images[j].expected.Some? ==> images[j].expected.value == response.placeholders[j].length
    {
      var p := response.placeholders[i];
      assert images[i] in images;
      if images[i].expected.Some? && images[i].expected.value != p.length {
        return Err(WrongLength(i));
      }
      out := out + [Clamped(response.tokens, p)];
    }
    r := Ok(out);
  }

  lemma {:induction false} ImagesAreImages(chunks: seq<Chunk>)
    ensures forall c | c in Images(chunks) :: c.Image?
    ensures Images(chunks) == [] ==> forall c | c in chunks :: c.Text?
    decreases |chunks|
  {
    if chunks == [] {
    } else {
      var n := |chunks| - 1;
      ImagesAreImages(chunks[..n]);
      assert chunks == chunks[..n] + [chunks[n]];
    }
  }

  /** Range number i holds the tokens that placeholder number i covers in the endpoint's stream. */
  predicate StandFor(r: Rendered, response: Response) {
    && |r.ranges| == |response.placeholders| && InOrder(r.ranges, |r.tokens|)
    && forall i | 0 <= i < |r.ranges| ::
         var p, q := response.placeholders[i], r.ranges[i];
         && r.tokens[q.offset..q.offset + q.length] == Clamped(response.tokens, p)
         && (p.offset + p.length <= |response.tokens| ==>
               r.tokens[q.offset..q.offset + q.length] == response.tokens[p.offset..p.offset + p.length])
  }

  lemma AsRendered(r: Rendered, images: seq<seq<int>>, response: Response)
    requires Recovers(r, images) && |images| == |response.placeholders|
    requires forall i | 0 <= i < |images| :: images[i] == Clamped(response.tokens, response.placeholders[i])
    ensures StandFor(r, response)
  {
  }

  /** Rendering one input.  Without images the endpoint's answer does not matter. */
  method RenderSingle(chunks: seq<Chunk>, response: Response) returns (r: Result<Rendered, Failure>)
    ensures r.Ok? <==> Images(chunks) == [] || LengthsAgree(Images(chunks), response.placeholders)
    ensures r.Ok? ==>
      InOrder(r.value.ranges, |r.value.tokens|) && CutOut(r.value.tokens, r.value.ranges) == TextOnly(chunks)
    ensures Images(chunks) == [] ==> r == Ok(Rendered(TextOnly(chunks), []))
    ensures r.Ok? && Images(chunks) != [] ==> StandFor(r.value, response)
  {
    var imageChunks := Images(chunks);
    ImagesAreImages(chunks);
    if imageChunks == [] {
      return Ok(Rendered(TextOnly(chunks), []));
    }
    var images := RenderImages(imageChunks, response);
    if images.Err? {
      return Err(images.reason);
    }
    var out := Assemble(chunks, images.value);
    AsRendered(out, images.value, response);
    r := Ok(out);
  }
}
