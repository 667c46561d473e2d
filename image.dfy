/**
 * Day 8: the space image format. The image is a string of digits; it is cut
 * into layers of `m * n` pixels, the checksum multiplies the counts of '1'
 * and '2' on the layer with the fewest '0', and decoding keeps, for each
 * pixel, the first '0' (black) or '1' (white) found going down the layers,
 * '2' being transparent. Strings are modelled as sequences of characters;
 * the source's byte offsets coincide with character offsets for the digit
 * strings it is given.
 */
module Image {
  import opened Outcomes

  /** Prefixes every layer list with `front`; a failure stays a failure. */
  function Prepend(front: seq<string>, rest: Option<seq<string>>): Option<seq<string>>
  {
    match rest
    case None => None
    case Some(layers) => Some(front + layers)
  }

  /**
   * What `split_into_layers` yields: consecutive pieces of `size`
   * characters, and `None` where `String::split_off` panics because fewer
   * than `size` characters remain.
   */
  function Layers(image: string, size: nat): Option<seq<string>>
    requires size > 0
    decreases |image|
  {
    if image == [] then Some([])
    else if size > |image| then None
    else Prepend([image[..size]], Layers(image[size..], size))
  }

  /** Prefixing twice is prefixing with both; prefixing nothing changes nothing. */
  lemma PrependTwice(a: seq<string>, b: seq<string>, rest: Option<seq<string>>)
    ensures Prepend(a, Prepend(b, rest)) == Prepend(a + b, rest)
    ensures Prepend([], rest) == rest
  {
    if rest.Some? {
      assert a + (b + rest.value) == (a + b) + rest.value;
      assert [] + rest.value == rest.value;
    }
  }

  /** The layers joined back together. */
  function Flatten(layers: seq<string>): string
  {
    if layers == [] then [] else layers[0] + Flatten(layers[1..])
  }

  /**
   * The image splits exactly when its length is a multiple of the layer
   * size; then every layer has that size and the layers joined back give
   * the image.
   */
  lemma {:induction false} LayersSplit(image: string, size: nat)
    requires size > 0
    ensures Layers(image, size).Some? <==> |image| % size == 0
    ensures Layers(image, size).Some? ==>
      var layers := Layers(image, size).value;
      |layers| == |image| / size && Flatten(layers) == image
      && forall i | 0 <= i < |layers| :: |layers[i]| == size
    decreases |image|
  {
    if image != [] && size <= |image| {
      var rest := image[size..];
      LayersSplit(rest, size);
      assert |image| % size == |rest| % size && |image| / size == |rest| / size + 1 by {
        DivStep(|rest|, size);
      }
      if Layers(rest, size).Some? {
        var layers := Layers(image, size).value;
        assert layers[1..] == Layers(rest, size).value;
        assert image == image[..size] + rest;
      }
    } else if image != [] {
      assert |image| % size == |image|;
    }
  }

  /** Adding `size` keeps the remainder and adds one to the quotient. */
  lemma DivStep(k: nat, size: nat)
    requires size > 0
    ensures (k + size) % size == k % size && (k + size) / size == k / size + 1
  {
    DivUnique(k + size, size, k / size + 1, k % size);
  }

  /** Quotient and remainder are the only ones with the remainder in range. */
  lemma DivUnique(x: int, d: int, a: int, b: int)
    requires d > 0 && 0 <= b < d && x == a * d + b
    ensures x / d == a && x % d == b
  {
    var q, r := x / d, x % d;
    if q > a {
      assert (q - a) * d == b - r;
      MulAtLeast(q - a, d);
    } else if q < a {
      assert (a - q) * d == r - b;
      MulAtLeast(a - q, d);
    }
  }

  /** A positive multiple of `d` is at least `d`. */
  lemma MulAtLeast(k: int, d: int)
    requires k >= 1 && d > 0
    ensures k * d >= d
  {
    assert k * d == (k - 1) * d + d;
    if k > 1 {
      MulAtLeast(k - 1, d);
    }
  }

  /**
   * `split_into_layers`: cuts pieces of `m * n` characters off the front
   * until nothing is left. With `m * n == 0` and a non-empty image the
   * source loops for ever, so that input is excluded.
   */
  method SplitIntoLayers(image: string, m: nat, n: nat) returns (r: Option<seq<string>>)
    requires m * n > 0 || image == []
    ensures m * n > 0 ==> r == Layers(image, m * n)
    ensures image == [] ==> r == Some([])
  {
    var imageStr := image;
    var result := [];
    if m * n > 0 {
      PrependTwice([], [], Layers(image, m * n));
    }
    while |imageStr| > 0
      invariant m * n > 0 ==> Layers(image, m * n) == Prepend(result, Layers(imageStr, m * n))
      invariant image == [] ==> result == [] && imageStr == []
      decreases |imageStr|
    {
      if m * n > |imageStr| {
        return None;
      }
      var rest := imageStr[m * n..];
      var slice := imageStr[..m * n];
      PrependTwice(result, [slice], Layers(rest, m * n));
      imageStr := rest;
      result := result + [slice];
    }
    assert result + [] == result;
    return Some(result);
  }

  /** `count_0s`: the number of '0' characters. */
  method Count0s(s: string) returns (count: nat)
    ensures count == multiset(s)['0']
  {
    count := 0;
    for i := 0 to |s|
      invariant count == multiset(s[..i])['0']
    {
      assert s[..i + 1] == s[..i] + [s[i]];
      if s[i] == '0' {
        count := count + 1;
      }
    }
    assert s[..|s|] == s;
  }

  /** The character counts of a string: each character that occurs, with how often it does. */
  predicate CountsOf(counts: map<char, nat>, s: string)
  {
    (forall c :: c in counts <==> c in multiset(s)) && forall c | c in counts :: counts[c] == multiset(s)[c]
  }

  /** `count_chars`: a map from each character of the string to how many times it occurs. */
  method CountChars(s: string) returns (result: map<char, nat>)
    ensures CountsOf(result, s)
  {
    result := map[];
    for i := 0 to |s|
      invariant CountsOf(result, s[..i])
    {
      assert s[..i + 1] == s[..i] + [s[i]];
      var c := s[i];
      var before := if c in result then result[c] else 0;
      result := result[c := before + 1];
    }
    assert s[..|s|] == s;
  }

  /** The sum of the values of a count map. */
  ghost function Total(counts: map<char, nat>): nat
    decreases |counts.Keys|
  {
    if counts == map[] then 0
    else
      var c :| c in counts;
      assert counts.Keys == (counts - {c}).Keys + {c};
      counts[c] + Total(counts - {c})
  }

  /** The sum does not depend on which key is taken out first. */
  lemma {:induction false} TotalWithout(counts: map<char, nat>, x: char)
    requires x in counts
    ensures Total(counts) == counts[x] + Total(counts - {x})
    decreases |counts.Keys|
  {
    var c :| c in counts && Total(counts) == counts[c] + Total(counts - {c});
    if c != x {
      assert counts.Keys == (counts - {c}).Keys + {c};
      assert (counts - {c}).Keys == ((counts - {c}) - {x}).Keys + {x};
      TotalWithout(counts - {c}, x);
      TotalWithout(counts - {x}, c);
      assert (counts - {c}) - {x} == (counts - {x}) - {c};
    }
  }

  /** The counts of any string add up to its length. */
  lemma {:induction false} CountsAddUp(counts: map<char, nat>, s: string)
    requires CountsOf(counts, s)
    ensures Total(counts) == |s|
    decreases |s|
  {
    if s == [] {
      assert forall c :: c !in counts;
      assert counts == map[];
    } else {
      var p, c := s[..|s| - 1], s[|s| - 1];
      assert s == p + [c];
      assert c in counts;
      TotalWithout(counts, c);
      if multiset(p)[c] == 0 {
        var rest := counts - {c};
        assert CountsOf(rest, p);
        CountsAddUp(rest, p);
      } else {
        var rest := counts[c := counts[c] - 1];
        assert CountsOf(rest, p);
        CountsAddUp(rest, p);
        TotalWithout(rest, c);
        assert rest - {c} == counts - {c};
      }
    }
  }

  /** How many times `c` occurs on a layer. */
  function Occurrences(layer: string, c: char): nat
  {
    multiset(layer)[c]
  }

  /** Among the first `upto` layers, layer `i` is the first of those with the fewest '0'. */
  predicate FirstFewest(layers: seq<string>, i: int, upto: nat)
  {
    && 0 <= i < upto <= |layers|
    && (forall j | 0 <= j < i :: Occurrences(layers[j], '0') > Occurrences(layers[i], '0'))
    && (forall j | i < j < upto :: Occurrences(layers[j], '0') >= Occurrences(layers[i], '0'))
  }

  /**
   * The layer the scan of `find_smallest0_mult1_2` has kept after looking at
   * the first `upto` layers, or -1 while none has had fewer '0' than `size`.
   */
  function Kept(layers: seq<string>, upto: nat, size: nat): (r: int)
    requires upto <= |layers|
    ensures -1 <= r < upto
  {
    if upto == 0 then -1
    else
      var prev := Kept(layers, upto - 1, size);
      var bound := if prev == -1 then size else Occurrences(layers[prev], '0');
      if Occurrences(layers[upto - 1], '0') < bound then upto - 1 else prev
  }

  /**
   * The scan keeps nothing exactly when no layer has fewer '0' than `size`,
   * and otherwise keeps the first layer with the fewest '0'.
   */
  lemma {:induction false} KeptIsFirstFewest(layers: seq<string>, upto: nat, size: nat)
    requires upto <= |layers|
    ensures var k := Kept(layers, upto, size);
      && (k == -1 <==> forall j | 0 <= j < upto :: Occurrences(layers[j], '0') >= size)
      && (k != -1 ==> FirstFewest(layers, k, upto) && Occurrences(layers[k], '0') < size)
  {
    if upto > 0 {
      KeptIsFirstFewest(layers, upto - 1, size);
    }
  }

  /**
   * `find_smallest0_mult1_2`: over the layers of `m * n` pixels, the number
   * of '1' times the number of '2' on the first layer with the fewest '0'.
   * The source reads each layer's '0' count with `unwrap`, so a layer
   * without any '0' makes it panic, as does an image whose length is not a
   * multiple of the layer size (both `None` here). Only a layer with fewer
   * '0' than `m * n` replaces the initial empty map, so when no layer has
   * one the result is 0.
   */
  method FindSmallest0Mult12(str: string, m: nat, n: nat) returns (r: Option<nat>)
    requires m * n > 0 || str == []
    ensures m * n > 0 && Layers(str, m * n).None? ==> r.None?
    ensures var split := if m * n > 0 then Layers(str, m * n) else Some([]);
      split.Some? ==>
        var layers := split.value;
        && (r.None? <==> exists j | 0 <= j < |layers| :: Occurrences(layers[j], '0') == 0)
        && (r.Some? && (exists j | 0 <= j < |layers| :: Occurrences(layers[j], '0') < m * n) ==>
              exists i | FirstFewest(layers, i, |layers|) :: r.value == Occurrences(layers[i], '1') * Occurrences(layers[i], '2'))
        && (r.Some? && (forall j | 0 <= j < |layers| :: Occurrences(layers[j], '0') >= m * n) ==> r.value == 0)
  {
    var split := SplitIntoLayers(str, m, n);
    if split.None? {
      return None;
    }
    var layers := split.value;
    var complete, smallest := ScanLayers(layers, m * n);
    if !complete {
      return None;
    }
    var c1: nat := if '1' in smallest then smallest['1'] else 0;
    var c2: nat := if '2' in smallest then smallest['2'] else 0;
    KeptIsFirstFewest(layers, |layers|, m * n);
    ghost var k := Kept(layers, |layers|, m * n);
    if k != -1 {
      assert c1 == Occurrences(layers[k], '1') && c2 == Occurrences(layers[k], '2');
    }
    return Some(Product(c1, c2));
  }

  /**
   * The loop of `find_smallest0_mult1_2`: the character counts of the layer
   * the scan keeps (empty while none is kept), unless a layer without '0'
   * makes the `unwrap` panic (`complete` false).
   */
  method ScanLayers(layers: seq<string>, size: nat) returns (complete: bool, smallest: map<char, nat>)
    ensures complete <==> forall j | 0 <= j < |layers| :: Occurrences(layers[j], '0') > 0
    ensures complete && Kept(layers, |layers|, size) == -1 ==> smallest == map[]
    ensures complete && Kept(layers, |layers|, size) != -1 ==> CountsOf(smallest, layers[Kept(layers, |layers|, size)])
  {
    var count := size;
    smallest := map[];
    for index := 0 to |layers|
      invariant forall j | 0 <= j < index :: Occurrences(layers[j], '0') > 0
      invariant Kept(layers, index, size) == -1 ==> smallest == map[] && count == size
      invariant Kept(layers, index, size) != -1 ==>
        CountsOf(smallest, layers[Kept(layers, index, size)]) && count == Occurrences(layers[Kept(layers, index, size)], '0')
    {
      var counts := CountChars(layers[index]);
      if '0' !in counts {
        return false, smallest;
      }
      var curCount := counts['0'];
      if curCount < count {
        smallest := counts;
        count := curCount;
      }
    }
    return true, smallest;
  }

  /** A pixel value that hides what lies beneath it: '0' (black) or '1' (white). */
  predicate Opaque(c: char)
  {
    c == '0' || c == '1'
  }

  /**
   * Pixel `k` as seen through the layers from the front: the first opaque
   * character at position `k`, or `None` if every layer is transparent or
   * too short there.
   */
  function FirstVisible(layers: seq<string>, k: nat): Option<char>
  {
    if layers == [] then None
    else if k < |layers[0]| && Opaque(layers[0][k]) then Some(layers[0][k])
    else FirstVisible(layers[1..], k)
  }

  /** Pixel `k` is visible exactly when some layer is opaque there, and then it shows the first such layer. */
  lemma {:induction false} FirstVisibleIsFrontmost(layers: seq<string>, k: nat)
    ensures FirstVisible(layers, k).Some? <==> exists i | 0 <= i < |layers| :: k < |layers[i]| && Opaque(layers[i][k])
    ensures FirstVisible(layers, k).Some? ==>
      exists i | 0 <= i < |layers| :: && k < |layers[i]| && Opaque(layers[i][k])
                                     && FirstVisible(layers, k).value == layers[i][k]
                                     && forall h | 0 <= h < i :: !(k < |layers[h]| && Opaque(layers[h][k]))
  {
    if layers != [] {
      FirstVisibleIsFrontmost(layers[1..], k);
      if !(k < |layers[0]| && Opaque(layers[0][k])) {
        if FirstVisible(layers[1..], k).Some? {
          var i :| && 0 <= i < |layers[1..]| && k < |layers[1..][i]| && Opaque(layers[1..][i][k])
                   && FirstVisible(layers[1..], k).value == layers[1..][i][k]
                   && forall h | 0 <= h < i :: !(k < |layers[1..][h]| && Opaque(layers[1..][h][k]));
          assert forall h | 0 <= h < i + 1 :: !(k < |layers[h]| && Opaque(layers[h][k])) by {
            forall h | 0 <= h < i + 1
              ensures !(k < |layers[h]| && Opaque(layers[h][k]))
            {
              if h > 0 {
                assert layers[h] == layers[1..][h - 1];
              }
            }
          }
          assert layers[i + 1] == layers[1..][i];
        } else {
          forall i | 0 <= i < |layers|
            ensures !(k < |layers[i]| && Opaque(layers[i][k]))
          {
            if i > 0 {
              assert layers[i] == layers[1..][i - 1];
            }
          }
        }
      }
    }
  }

  /** Looking through one more layer at the back only fills pixels still unseen. */
  lemma {:induction false} FirstVisibleBehind(layers: seq<string>, back: string, k: nat)
    ensures FirstVisible(layers + [back], k) ==
      if FirstVisible(layers, k).Some? then FirstVisible(layers, k)
      else if k < |back| && Opaque(back[k]) then Some(back[k])
      else None
  {
    if layers == [] {
      assert [] + [back] == [back];
      assert [back][1..] == [];
    } else {
      assert (layers + [back])[1..] == layers[1..] + [back];
      FirstVisibleBehind(layers[1..], back, k);
    }
  }

  /** `pixels` holds exactly the visible pixels of `layers`. */
  ghost predicate Decodes(pixels: map<nat, char>, layers: seq<string>)
  {
    forall k: nat :: (k in pixels <==> FirstVisible(layers, k).Some?)
                     && (k in pixels ==> pixels[k] == FirstVisible(layers, k).value)
  }

  /**
   * `decode_pixels`: going through the layers front to back, records each
   * position's first '0' or '1'; positions never opaque stay absent.
   */
  method DecodePixels(layers: seq<string>) returns (pixels: map<nat, char>)
    ensures Decodes(pixels, layers)
  {
    pixels := map[];
    for li := 0 to |layers|
      invariant Decodes(pixels, layers[..li])
    {
      var layer := layers[li];
      assert Decodes(pixels, layers[..li] + [layer[..0]]) by {
        forall k: nat
          ensures FirstVisible(layers[..li] + [layer[..0]], k) == FirstVisible(layers[..li], k)
        {
          FirstVisibleBehind(layers[..li], layer[..0], k);
        }
      }
      for index := 0 to |layer|
        invariant Decodes(pixels, layers[..li] + [layer[..index]])
      {
        var c := layer[index];
        ghost var old_pixels := pixels;
        if index !in pixels {
          if c == '1' || c == '0' {
            pixels := pixels[index := c];
          }
        }
        DecodeStep(old_pixels, pixels, layers[..li], layer, index);
      }
      assert layer[..|layer|] == layer;
      assert layers[..li] + [layer] == layers[..li + 1];
    }
    assert layers[..|layers|] == layers;
  }

  /** One character of the inner loop of `decode_pixels` keeps `Decodes`. */
  lemma DecodeStep(before: map<nat, char>, after: map<nat, char>, front: seq<string>, layer: string, index: nat)
    requires index < |layer|
    requires Decodes(before, front + [layer[..index]])
    requires after == if index !in before && Opaque(layer[index]) then before[index := layer[index]] else before
    ensures Decodes(after, front + [layer[..index + 1]])
  {
    forall k: nat
      ensures (k in after <==> FirstVisible(front + [layer[..index + 1]], k).Some?)
              && (k in after ==> after[k] == FirstVisible(front + [layer[..index + 1]], k).value)
    {
      FirstVisibleBehind(front, layer[..index], k);
      FirstVisibleBehind(front, layer[..index + 1], k);
    }
  }

  /** What the assembled image shows at position `k`: the visible pixel, or '2' where none is. */
  function PixelAt(layers: seq<string>, k: nat): char
  {
    match FirstVisible(layers, k)
    case None => '2'
    case Some(c) => c
  }

  /**
   * `assemble_image`: `n` rows of `m` characters, the character in row `i`
   * and column `j` being the decoded pixel `i * m + j`, or '2' when no layer
   * is opaque there. `None` where splitting the image panics.
   */
  method AssembleImage(image: string, m: nat, n: nat) returns (r: Option<seq<string>>)
    requires m * n > 0 || image == []
    ensures var split := if m * n > 0 then Layers(image, m * n) else Some([]);
      && (r.Some? <==> split.Some?)
      && (r.Some? ==>
            && |r.value| == n
            && (forall i | 0 <= i < n :: |r.value[i]| == m)
            && forall i, j | 0 <= i < n && 0 <= j < m :: r.value[i][j] == PixelAt(split.value, i * m + j))
  {
    var split := SplitIntoLayers(image, m, n);
    if split.None? {
      return None;
    }
    var layers := split.value;
    var pixels := DecodePixels(layers);
    var imageVec := [];
    for i := 0 to n
      invariant |imageVec| == i
      invariant forall i' | 0 <= i' < i :: |imageVec[i']| == m
      invariant forall i', j | 0 <= i' < i && 0 <= j < m :: imageVec[i'][j] == PixelAt(layers, i' * m + j)
    {
      var layer := "";
      for j := 0 to m
        invariant |layer| == j
        invariant forall j' | 0 <= j' < j :: layer[j'] == PixelAt(layers, i * m + j')
      {
        var index := i * m + j;
        if index !in pixels {
          layer := layer + ['2'];
        } else {
          layer := layer + [pixels[index]];
        }
      }
      imageVec := imageVec + [layer];
    }
    return Some(imageVec);
  }
}
