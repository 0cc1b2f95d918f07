/**
 * The zone's debug counters (src/engine/zone/debug.rs): how many tiles,
 * resources, stuffs, characters and builds were drawn in a frame, and the
 * frame rate, shown on one line.
 */
module Debug {

  import opened Ints
  import Strings

  /** Integer formatting never writes a comma. */
  lemma NoComma(i: int)
    ensures |Strings.IntToString(i)| > 0 && ',' !in Strings.IntToString(i)
  {
    Strings.IntToStringRoundTrip(i);
    var s := Strings.IntToString(i);
    forall k | 0 <= k < |s|
      ensures s[k] != ','
    {
      if s[0] == '-' && k > 0 {
        assert s[1..][k - 1] == s[k];
      }
    }
  }

  /** A comma that neither left part holds splits both strings at the same place. */
  lemma SplitAtComma(x: string, y: string, r1: string, r2: string)
    requires ',' !in x && ',' !in y
    requires x + [','] + r1 == y + [','] + r2
    ensures x == y && r1 == r2
  {
    var s := x + [','] + r1;
    assert |x| == |y| by {
      assert s[|x|] == ',' && s[|y|] == ',';
      assert forall k | 0 <= k < |x| :: s[k] == x[k] && x[k] != ',';
      assert forall k | 0 <= k < |y| :: s[k] == y[k] && y[k] != ',';
    }
    assert x == s[..|x|] && y == s[..|y|];
    assert r1 == s[|x| + 1..] && r2 == s[|y| + 1..];
  }

  /** One `tag` + number field, followed by nothing or by a comma, gives its number back. */
  lemma PeelField(tag: string, a: int, b: int, rest1: string, rest2: string)
    requires tag + Strings.IntToString(a) + rest1 == tag + Strings.IntToString(b) + rest2
    requires (rest1 == [] && rest2 == []) || (|rest1| > 0 && rest1[0] == ',' && |rest2| > 0 && rest2[0] == ',')
    ensures a == b && rest1 == rest2
  {
    var s := tag + Strings.IntToString(a) + rest1;
    var sa := Strings.IntToString(a);
    var sb := Strings.IntToString(b);
    assert sa + rest1 == s[|tag|..] == sb + rest2;
    Strings.IntToStringRoundTrip(a);
    Strings.IntToStringRoundTrip(b);
    if rest1 == [] {
      assert sa + rest1 == sa && sb + rest2 == sb;
    } else {
      NoComma(a);
      NoComma(b);
      assert sa + rest1 == sa + [','] + rest1[1..];
      assert sb + rest2 == sb + [','] + rest2[1..];
      SplitAtComma(sa, sb, rest1[1..], rest2[1..]);
    }
  }

  class DebugInfo {
    var tileCount: int
    var resourceCount: int
    var stuffCount: int
    var characterCount: int
    var buildCount: int
    var fps: int

    /** Every counter is an `i32`. */
    ghost predicate Valid()
      reads this
    {
      IsI32(tileCount) && IsI32(resourceCount) && IsI32(stuffCount)
      && IsI32(characterCount) && IsI32(buildCount) && IsI32(fps)
    }

    /** `DebugInfo::new`: every counter and the frame rate at 0. */
    constructor ()
      ensures Valid()
      ensures tileCount == 0 && resourceCount == 0 && stuffCount == 0
      ensures characterCount == 0 && buildCount == 0 && fps == 0
    {
      tileCount := 0;
      resourceCount := 0;
      stuffCount := 0;
      characterCount := 0;
      buildCount := 0;
      fps := 0;
    }

    /** `incr_zone_tile_count`: one more tile, wrapping at the `i32` bound; nothing else changes. */
    method IncrZoneTileCount()
      requires Valid()
      modifies this
      ensures Valid()
      ensures tileCount == AsI32(old(tileCount) + 1)
      ensures resourceCount == old(resourceCount) && stuffCount == old(stuffCount)
      ensures characterCount == old(characterCount) && buildCount == old(buildCount) && fps == old(fps)
    {
      tileCount := AsI32(tileCount + 1);
    }

    /** `incr_resource_count`. */
    method IncrResourceCount()
      requires Valid()
      modifies this
      ensures Valid()
      ensures resourceCount == AsI32(old(resourceCount) + 1)
      ensures tileCount == old(tileCount) && stuffCount == old(stuffCount)
      ensures characterCount == old(characterCount) && buildCount == old(buildCount) && fps == old(fps)
    {
      resourceCount := AsI32(resourceCount + 1);
    }

    /** `incr_stuff_count`. */
    method IncrStuffCount()
      requires Valid()
      modifies this
      ensures Valid()
      ensures stuffCount == AsI32(old(stuffCount) + 1)
      ensures tileCount == old(tileCount) && resourceCount == old(resourceCount)
      ensures characterCount == old(characterCount) && buildCount == old(buildCount) && fps == old(fps)
    {
      stuffCount := AsI32(stuffCount + 1);
    }

    /** `incr_character_count`. */
    method IncrCharacterCount()
      requires Valid()
      modifies this
      ensures Valid()
      ensures characterCount == AsI32(old(characterCount) + 1)
      ensures tileCount == old(tileCount) && resourceCount == old(resourceCount)
      ensures stuffCount == old(stuffCount) && buildCount == old(buildCount) && fps == old(fps)
    {
      characterCount := AsI32(characterCount + 1);
    }

    /** `incr_build_count`. */
    method IncrBuildCount()
      requires Valid()
      modifies this
      ensures Valid()
      ensures buildCount == AsI32(old(buildCount) + 1)
      ensures tileCount == old(tileCount) && resourceCount == old(resourceCount)
      ensures stuffCount == old(stuffCount) && characterCount == old(characterCount) && fps == old(fps)
    {
      buildCount := AsI32(buildCount + 1);
    }

    /** `set_fps`: only the frame rate changes. */
    method SetFps(fps: int)
      requires Valid() && IsI32(fps)
      modifies this
      ensures Valid()
      ensures this.fps == fps
      ensures tileCount == old(tileCount) && resourceCount == old(resourceCount) && stuffCount == old(stuffCount)
      ensures characterCount == old(characterCount) && buildCount == old(buildCount)
    {
      this.fps := fps;
    }

    /** `reset`: back to the state of `new`. */
    method Reset()
      modifies this
      ensures Valid()
      ensures tileCount == 0 && resourceCount == 0 && stuffCount == 0
      ensures characterCount == 0 && buildCount == 0 && fps == 0
    {
      tileCount := 0;
      resourceCount := 0;
      stuffCount := 0;
      characterCount := 0;
      buildCount := 0;
      fps := 0;
    }

    /** `to_string`: the frame rate, then the five counters, each after its letter. */
    function ToString(): (r: string)
      reads this
      ensures Strings.StartsWith(r, "FPS:")
    {
      Line(fps, tileCount, resourceCount, stuffCount, characterCount, buildCount)
    }
  }

  /** The debug line for these six numbers. */
  function Line(fps: int, tiles: int, resources: int, stuffs: int, characters: int, builds: int): (r: string)
    ensures Strings.StartsWith(r, "FPS:")
  {
    "FPS:" + Strings.IntToString(fps) +
    (",T:" + Strings.IntToString(tiles) +
    (",R:" + Strings.IntToString(resources) +
    (",S:" + Strings.IntToString(stuffs) +
    (",C:" + Strings.IntToString(characters) +
    (",B:" + Strings.IntToString(builds))))))
  }

  /** The debug line names each number: two lines are equal only when all six numbers are. */
  lemma LineDeterminesCounters(f1: int, t1: int, r1: int, s1: int, c1: int, b1: int,
                               f2: int, t2: int, r2: int, s2: int, c2: int, b2: int)
    requires Line(f1, t1, r1, s1, c1, b1) == Line(f2, t2, r2, s2, c2, b2)
    ensures f1 == f2 && t1 == t2 && r1 == r2 && s1 == s2 && c1 == c2 && b1 == b2
  {
    var I := Strings.IntToString;
    var tailB1, tailB2 := ",B:" + I(b1), ",B:" + I(b2);
    var tailC1, tailC2 := ",C:" + I(c1) + tailB1, ",C:" + I(c2) + tailB2;
    var tailS1, tailS2 := ",S:" + I(s1) + tailC1, ",S:" + I(s2) + tailC2;
    var tailR1, tailR2 := ",R:" + I(r1) + tailS1, ",R:" + I(r2) + tailS2;
    var tailT1, tailT2 := ",T:" + I(t1) + tailR1, ",T:" + I(t2) + tailR2;
    PeelField("FPS:", f1, f2, tailT1, tailT2);
    PeelField(",T:", t1, t2, tailR1, tailR2);
    PeelField(",R:", r1, r2, tailS1, tailS2);
    PeelField(",S:", s1, s2, tailC1, tailC2);
    PeelField(",C:", c1, c2, tailB1, tailB2);
    assert tailB1 == ",B:" + I(b1) + [] && tailB2 == ",B:" + I(b2) + [];
    PeelField(",B:", b1, b2, [], []);
  }

  /** The counters wrap: one more than the largest `i32` is the smallest. */
  lemma IncrementWraps()
    ensures AsI32(I32_MAX + 1) == I32_MIN
    ensures forall x | IsI32(x) && x < I32_MAX :: AsI32(x + 1) == x + 1
  {
  }
}
