/**
 * `src/components/CommandPalette/AppIcon.tsx`: turns the backend's raw BGRA icon payloads
 * into an image the palette can show. Base64 decoding (`atob`), the canvas and its data URL
 * are foreign: the decoded bytes (nothing when `atob` throws) and whether a 2D context was
 * available are parameters, and the image produced is represented by its RGBA pixel bytes.
 */
module AppIcon {
  import opened Wrappers
  import opened Strings

  newtype byte = x: int | 0 <= x < 256

  /** The canvas is `SIZE` x `SIZE` pixels. */
  const Size: nat := 48

  /** The length of the canvas's RGBA buffer. */
  const ImageBytes: nat := Size * Size * 4

  const IconPrefix: string := "icon-bgra:"
  const RawPrefix: string := "raw-bgra:"

  /** The URLs that carry raw BGRA bytes rather than an image address. */
  predicate IsBgra(url: string) {
    StartsWith(url, IconPrefix) || StartsWith(url, RawPrefix)
  }

  /** The text of `s` before its first `:`, or all of `s` when it has none. */
  function BeforeColon(s: string): (r: string)
    ensures |r| <= |s| && r == s[..|r|]
    ensures forall k :: 0 <= k < |r| ==> r[k] != ':'
    ensures |r| < |s| ==> s[|r|] == ':'
  {
    if s == [] || s[0] == ':' then [] else [s[0]] + BeforeColon(s[1..])
  }

  /**
   * `url.split(':')[1]`: the field between the first and the second `:`. Every URL it is
   * applied to has a `:`; without one the field is absent, and so is the payload here.
   */
  function Payload(url: string): (p: string)
    ensures forall k :: 0 <= k < |p| ==> p[k] != ':'
    ensures var head := BeforeColon(url);
      |head| < |url| ==>
        && |head| + 1 + |p| <= |url| && url[|head|] == ':' && url[|head| + 1..|head| + 1 + |p|] == p
        && (|head| + 1 + |p| < |url| ==> url[|head| + 1 + |p|] == ':')
  {
    var head := BeforeColon(url);
    if |head| == |url| then [] else BeforeColon(url[|head| + 1..])
  }

  /** An icon URL's payload is what follows the prefix, up to the next `:`. */
  lemma PayloadOfIcon(data: string)
    requires forall k :: 0 <= k < |data| ==> data[k] != ':'
    ensures Payload(IconPrefix + data) == data
    ensures Payload(RawPrefix + data) == data
  {
    var u, v := IconPrefix + data, RawPrefix + data;
    assert u[9] == ':' && v[8] == ':';
    BeforeColonAt(u, 9);
    BeforeColonAt(v, 8);
    assert u[10..] == data && v[9..] == data;
    BeforeColonNone(data);
  }

  lemma {:induction false} BeforeColonAt(s: string, n: nat)
    requires n < |s| && s[n] == ':' && forall k :: 0 <= k < n ==> s[k] != ':'
    ensures BeforeColon(s) == s[..n]
  {
    if n > 0 {
      BeforeColonAt(s[1..], n - 1);
      assert s[..n] == [s[0]] + s[1..][..n - 1];
    }
  }

  lemma {:induction false} BeforeColonNone(s: string)
    requires forall k :: 0 <= k < |s| ==> s[k] != ':'
    ensures BeforeColon(s) == s
  {
    if s != [] {
      BeforeColonNone(s[1..]);
    }
  }

  /** The BGRA offset that feeds RGBA channel `c` of a pixel: R from 2, G from 1, B from 0, A from 3. */
  function Source(c: nat): (k: nat)
    requires c < 4
    ensures k < 4
    ensures c != 3 ==> k == 2 - c
  {
    if c == 3 then 3 else 2 - c
  }

  /** A read past the end of `bytes` yields `undefined`, which the clamped buffer stores as 0. */
  function At(bytes: seq<byte>, k: nat): byte {
    if k < |bytes| then bytes[k] else 0
  }

  /** The number of bytes the loop's 4-byte steps cover: `bytes.length` rounded up to a whole pixel. */
  function Covered(bytes: seq<byte>): nat {
    |bytes| + (4 - |bytes| % 4) % 4
  }

  /** Byte `j` of the RGBA buffer after the loop. */
  function Channel(bytes: seq<byte>, j: nat): byte {
    if j < Covered(bytes) then At(bytes, j - j % 4 + Source(j % 4)) else 0
  }

  /** The RGBA buffer after the loop: every pixel the input reaches gets its channels swapped, the rest stays 0. */
  function Rgba(bytes: seq<byte>): (data: seq<byte>)
    ensures |data| == ImageBytes && forall j :: 0 <= j < ImageBytes ==> data[j] == Channel(bytes, j)
  {
    seq(ImageBytes, j requires 0 <= j < ImageBytes => Channel(bytes, j))
  }

  /** Within a step of the loop, channel `c` of the pixel at `i` comes from offset `Source(c)`. */
  lemma ChannelInStep(bytes: seq<byte>, i: nat, c: nat)
    requires i % 4 == 0 && i < |bytes| && c < 4
    ensures Channel(bytes, i + c) == At(bytes, i + Source(c))
  {
    assert (i + c) % 4 == c;
  }

  /** Past the covered bytes the buffer is 0. */
  lemma ChannelPast(bytes: seq<byte>, i: nat, j: nat)
    requires i % 4 == 0 && i >= |bytes| && j >= i
    ensures Channel(bytes, j) == 0
  {
  }

  /**
   * For a whole number of pixels that fits the canvas, channel swapping is an involution:
   * converting the converted bytes gives the original bytes back, and the canvas past them is 0.
   */
  lemma SwapInvolution(bytes: seq<byte>)
    requires |bytes| % 4 == 0 && |bytes| <= ImageBytes
    ensures forall j :: |bytes| <= j < ImageBytes ==> Rgba(bytes)[j] == 0
    ensures Rgba(Rgba(bytes)[..|bytes|])[..|bytes|] == bytes
  {
    var once := Rgba(bytes)[..|bytes|];
    var twice := Rgba(once);
    forall j | 0 <= j < |bytes|
      ensures twice[j] == bytes[j]
    {
      var base := j - j % 4;
      var k := base + Source(j % 4);
      assert k % 4 == Source(j % 4) && k - k % 4 == base;
      assert once[k] == At(bytes, base + Source(Source(j % 4)));
    }
  }

  /** A full 48x48 icon converted twice is the icon itself. */
  lemma FullIconInvolution(bytes: seq<byte>)
    requires |bytes| == ImageBytes
    ensures Rgba(Rgba(bytes)) == bytes
  {
    SwapInvolution(bytes);
    assert Rgba(bytes)[..|bytes|] == Rgba(bytes);
  }

  /**
   * The effect's two loops: the decoded characters are copied into a byte array, then each
   * 4-byte group is written into a fresh, zeroed 48x48 RGBA buffer with its channels swapped;
   * writes past the buffer are dropped, as typed arrays drop them.
   */
  method ToRgba(decoded: seq<byte>) returns (data: array<byte>)
    ensures data.Length == ImageBytes && data[..] == Rgba(decoded)
  {
    var bytes := new byte[|decoded|];
    for i := 0 to |decoded|
      invariant bytes[..i] == decoded[..i]
    {
      bytes[i] := decoded[i];
    }
    assert bytes[..] == decoded;
    data := new byte[ImageBytes](_ => 0);
    var i := 0;
    while i < bytes.Length
      invariant bytes[..] == decoded
      invariant i % 4 == 0 && i <= bytes.Length + 3
      invariant forall j :: 0 <= j < ImageBytes && j < i ==> data[j] == Channel(decoded, j)
      invariant forall j :: i <= j < ImageBytes ==> data[j] == 0
      decreases bytes.Length - i
    {
      for c := 0 to 4
        invariant bytes[..] == decoded
        invariant forall j :: 0 <= j < ImageBytes && j < i + c ==> data[j] == Channel(decoded, j)
        invariant forall j :: i + c <= j < ImageBytes ==> data[j] == 0
      {
        if i + c < data.Length {
          data[i + c] := if i + Source(c) < bytes.Length then bytes[i + Source(c)] else 0;
          ChannelInStep(decoded, i, c);
        }
      }
      i := i + 4;
    }
    forall j | i <= j < ImageBytes
      ensures data[j] == Channel(decoded, j)
    {
      ChannelPast(decoded, i, j);
    }
  }

  /** What the `<img>` shows: an address, or the canvas holding these RGBA bytes. */
  datatype Image = Address(url: string) | Canvas(rgba: seq<byte>)

  class IconView {
    /** `processedUrl`; `None` renders the fallback. */
    var processed: Option<Image>

    constructor ()
      ensures processed.None?
    {
      processed := None;
    }

    /**
     * The effect on a new `iconUrl` (`None` when absent). For a BGRA URL, `decoded` is what
     * `atob` made of its payload (`None` when it threw) and `hasContext` whether the canvas
     * gave a 2D context; without one the effect returns early and keeps the previous image.
     */
    method IconUrlChanged(iconUrl: Option<string>, decoded: Option<seq<byte>>, hasContext: bool)
      modifies this`processed
      ensures iconUrl.None? || iconUrl == Some("") ==> processed.None?
      ensures iconUrl.Some? && iconUrl.value != "" && !IsBgra(iconUrl.value) ==> processed == Some(Address(iconUrl.value))
      ensures iconUrl.Some? && IsBgra(iconUrl.value) ==>
        processed == (if decoded.None? then None else if !hasContext then old(processed) else Some(Canvas(Rgba(decoded.value))))
    {
      if iconUrl.None? || iconUrl.value == "" {
        processed := None;
        return;
      }
      var url := iconUrl.value;
      if IsBgra(url) {
        if decoded.None? {
          processed := None;
          return;
        }
        if !hasContext {
          return;
        }
        var data := ToRgba(decoded.value);
        processed := Some(Canvas(data[..]));
      } else {
        processed := Some(Address(url));
      }
    }
  }
}
