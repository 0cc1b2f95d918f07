/**
 * Zone text-map parsing (src/zone/load.rs). A zone source is free text in
 * which the tag "::GEO\n" introduces the map; every character of every line
 * of the map is one tile, turned into a tile id by a fixed character table.
 */
module ZoneLoad {

  import opened Wrappers
  import Strings
  import Hardcoded

  const GEO_TAG: string := "::GEO\n"
  const GEO_NOT_FOUND: string := "Error when extracting zone source, ::GEO tag not found"

  /** The character table of `from_txt_map`, with "UNKNOWN" for any other character. */
  function TileIdForChar(c: char): string
  {
    match c
    case ' ' => "NOTHING"
    case '⡩' => "SAND"
    case 'ʛ' => "DRY_BUSH"
    case '#' => "ROCK"
    case '~' => "SEA_WATER"
    case '܄' => "SHORT_GRASS"
    case '፨' => "ROCKY_GROUND"
    case '؛' => "HIGH_GRASS"
    case '⁖' => "DIRT"
    case '߉' => "LEAF_TREE"
    case 'ፆ' => "TROPICAL_TREE"
    case 'آ' => "DEAD_TREE"
    case 'ގ' => "FRESH_WATER_TILE"
    case 'c' => "COPPER_DEPOSIT"
    case 't' => "TIN_DEPOSIT"
    case 'i' => "IRON_DEPOSIT"
    case _ => "UNKNOWN"
  }

  /** The tile ids the character table can produce. */
  const TABLE_TILE_IDS: set<string> := {
    "NOTHING", "SAND", "DRY_BUSH", "ROCK", "SEA_WATER", "SHORT_GRASS", "ROCKY_GROUND", "HIGH_GRASS",
    "DIRT", "LEAF_TREE", "TROPICAL_TREE", "DEAD_TREE", "FRESH_WATER_TILE", "COPPER_DEPOSIT",
    "TIN_DEPOSIT", "IRON_DEPOSIT"}

  /**
   * A space is "NOTHING", a tabled character its entry and anything else
   * "UNKNOWN"; apart from "NOTHING" (which the zone scene skips when
   * drawing) every id produced is a tile of the built-in tile list.
   */
  lemma TileIdForCharIsKnown(c: char)
    ensures c == ' ' <==> TileIdForChar(c) == "NOTHING"
    ensures TileIdForChar(c) in TABLE_TILE_IDS + {"UNKNOWN"}
    ensures TileIdForChar(c) != "NOTHING" ==> TileIdForChar(c) in Hardcoded.TileIds()
  {
    TableTileIdsAreListed();
  }

  /** Every id of the character table but "NOTHING", and "UNKNOWN", names a tile of the built-in list. */
  lemma TableTileIdsAreListed()
    ensures (TABLE_TILE_IDS - {"NOTHING"}) + {"UNKNOWN"} <= Hardcoded.TileIds()
  {
    // Each id is the id of the list entry at the position given (the list is long, so a few at a time).
    ListedGroup0();
    ListedGroup1();
    ListedGroup2();
    ListedGroup3();
  }

  lemma ListedGroup0()
    ensures "UNKNOWN" in Hardcoded.TileIds()
         && "SAND" in Hardcoded.TileIds()
         && "DRY_BUSH" in Hardcoded.TileIds()
         && "ROCK" in Hardcoded.TileIds()
         && "SEA_WATER" in Hardcoded.TileIds()
         && "FRESH_WATER_TILE" in Hardcoded.TileIds()
  {
    Hardcoded.TileAtIsListed(0);
    Hardcoded.TileAtIsListed(13);
    Hardcoded.TileAtIsListed(14);
    Hardcoded.TileAtIsListed(15);
    Hardcoded.TileAtIsListed(16);
    Hardcoded.TileAtIsListed(17);
  }

  lemma ListedGroup1()
    ensures "SHORT_GRASS" in Hardcoded.TileIds()
         && "HIGH_GRASS" in Hardcoded.TileIds()
         && "ROCKY_GROUND" in Hardcoded.TileIds()
         && "DIRT" in Hardcoded.TileIds()
         && "LEAF_TREE" in Hardcoded.TileIds()
  {
    Hardcoded.TileAtIsListed(18);
    Hardcoded.TileAtIsListed(19);
    Hardcoded.TileAtIsListed(20);
    Hardcoded.TileAtIsListed(21);
    Hardcoded.TileAtIsListed(22);
  }

  lemma ListedGroup2()
    ensures "TROPICAL_TREE" in Hardcoded.TileIds()
         && "DEAD_TREE" in Hardcoded.TileIds()
         && "COPPER_DEPOSIT" in Hardcoded.TileIds()
  {
    Hardcoded.TileAtIsListed(23);
    Hardcoded.TileAtIsListed(24);
    Hardcoded.TileAtIsListed(45);
  }

  lemma ListedGroup3()
    ensures "TIN_DEPOSIT" in Hardcoded.TileIds()
         && "IRON_DEPOSIT" in Hardcoded.TileIds()
  {
    Hardcoded.TileAtIsListed(46);
    Hardcoded.TileAtIsListed(47);
  }

  /**
   * `source.split("::GEO\n").nth(1)`: the text after the first tag, up to
   * the next tag if there is one; `None` when there is no tag at all.
   */
  function GeoSection(source: string): (r: Option<string>)
    ensures r.None? <==> forall j | 0 <= j <= |source| :: !Strings.OccursAt(source, GEO_TAG, j)
    ensures r.Some? ==> exists i | 0 <= i <= |source| :: IsGeoSection(source, i, r.value)
    ensures r.Some? ==> forall j | 0 <= j <= |r.value| :: !Strings.OccursAt(r.value, GEO_TAG, j)
  {
    match Strings.Find(source, GEO_TAG)
    case None => None
    case Some(i) =>
      var start := i + |GEO_TAG|;
      var rest := source[start..];
      var n := match Strings.Find(rest, GEO_TAG)
        case None => |rest|
        case Some(k) => k;
      var section := rest[..n];
      SecondPiece(source, i, rest, section);
      Some(section)
  }

  /**
   * A start of the text after the first tag, when no tag starts inside it
   * and the next one (if any) starts right after it, is the second piece
   * of the split.
   */
  lemma SecondPiece(source: string, i: nat, rest: string, section: string)
    requires Strings.OccursAt(source, GEO_TAG, i)
    requires forall j | 0 <= j < i :: !Strings.OccursAt(source, GEO_TAG, j)
    requires rest == source[i + |GEO_TAG|..]
    requires |section| <= |rest| && section == rest[..|section|]
    requires forall j | 0 <= j < |section| :: !Strings.OccursAt(rest, GEO_TAG, j)
    requires |section| == |rest| || Strings.OccursAt(rest, GEO_TAG, |section|)
    ensures IsGeoSection(source, i, section)
    ensures forall j | 0 <= j <= |section| :: !Strings.OccursAt(section, GEO_TAG, j)
  {
    var start := i + |GEO_TAG|;
    SectionCut(source, start, |section|);
    if |section| < |rest| {
      Strings.OccursInSuffix(source, GEO_TAG, start, |section|);
    }
  }

  /** The first `n` characters after `start`, holding no tag start in `source`, hold no tag at all. */
  lemma SectionCut(source: string, start: nat, n: nat)
    requires start + n <= |source|
    requires forall j | 0 <= j < n :: !Strings.OccursAt(source[start..], GEO_TAG, j)
    ensures source[start..][..n] == source[start..start + n]
    ensures forall j | start <= j < start + n :: !Strings.OccursAt(source, GEO_TAG, j)
    ensures forall j | 0 <= j <= n :: !Strings.OccursAt(source[start..][..n], GEO_TAG, j)
  {
    var rest := source[start..];
    forall j | start <= j < start + n
      ensures !Strings.OccursAt(source, GEO_TAG, j)
    {
      Strings.OccursInSuffix(source, GEO_TAG, start, j - start);
    }
    forall j | 0 <= j <= n
      ensures !Strings.OccursAt(rest[..n], GEO_TAG, j)
    {
      Strings.OccursInPrefix(rest, GEO_TAG, n, j);
    }
  }

  /**
   * `section` is the second piece of `source` split at the tag, the first
   * tag being at `i`: the text after that tag, with no tag starting inside
   * it, ending where the next tag starts or at the end of the source.
   */
  ghost predicate IsGeoSection(source: string, i: nat, section: string)
  {
    && Strings.OccursAt(source, GEO_TAG, i)
    && (forall j | 0 <= j < i :: !Strings.OccursAt(source, GEO_TAG, j))
    && i + |GEO_TAG| + |section| <= |source|
    && source[i + |GEO_TAG|..i + |GEO_TAG| + |section|] == section
    && (forall j | i + |GEO_TAG| <= j < i + |GEO_TAG| + |section| :: !Strings.OccursAt(source, GEO_TAG, j))
    && (i + |GEO_TAG| + |section| == |source| || Strings.OccursAt(source, GEO_TAG, i + |GEO_TAG| + |section|))
  }

  /** `line.strip_suffix('\r')`, as `str::lines` applies it to every line that ended with "\n". */
  function StripCr(line: string): string
  {
    if |line| > 0 && line[|line| - 1] == '\r' then line[..|line| - 1] else line
  }

  /**
   * `str::lines`: split after every "\n", dropping the "\n" and a "\r"
   * just before it; a last line without "\n" is kept as it is, and a final
   * "\n" does not start an empty line.
   */
  function Lines(s: string): (r: seq<string>)
    ensures forall i | 0 <= i < |r| :: '\n' !in r[i]
    decreases |s|
  {
    if s == [] then []
    else match Strings.Find(s, "\n")
      case None =>
        assert forall j | 0 <= j < |s| :: s[j] != '\n' by {
          forall j | 0 <= j < |s| ensures s[j] != '\n' {
            assert !Strings.OccursAt(s, "\n", j);
            assert s[j..j + 1] == [s[j]];
          }
        }
        [s]
      case Some(k) =>
        assert forall j | 0 <= j < k :: s[j] != '\n' by {
          forall j | 0 <= j < k ensures s[j] != '\n' {
            assert !Strings.OccursAt(s, "\n", j);
            assert s[j..j + 1] == [s[j]];
          }
        }
        [StripCr(s[..k])] + Lines(s[k + 1..])
  }

  /** Writes lines back as text, each followed by "\n". */
  function Unlines(lines: seq<string>): string
  {
    if lines == [] then [] else lines[0] + "\n" + Unlines(lines[1..])
  }

  /** `str::lines` undoes Unlines for lines that have no "\n" and do not end with "\r". */
  lemma {:induction false} LinesUnlines(lines: seq<string>)
    requires forall i | 0 <= i < |lines| :: '\n' !in lines[i] && StripCr(lines[i]) == lines[i]
    ensures Lines(Unlines(lines)) == lines
  {
    if lines != [] {
      var l := lines[0];
      var s := Unlines(lines);
      assert s == l + "\n" + Unlines(lines[1..]);
      assert Strings.OccursAt(s, "\n", |l|);
      forall j | 0 <= j < |l|
        ensures !Strings.OccursAt(s, "\n", j)
      {
        assert s[j] == l[j];
        assert s[j..j + 1] == [s[j]];
      }
      assert Strings.Find(s, "\n") == Some(|l|);
      assert s[..|l|] == l;
      assert s[|l| + 1..] == Unlines(lines[1..]);
      LinesUnlines(lines[1..]);
    }
  }

  /** A last line without a line break after it is read back as one more line, kept as it is. */
  lemma LinesUnlinesLast(lines: seq<string>, last: string)
    requires forall i | 0 <= i < |lines| :: '\n' !in lines[i] && StripCr(lines[i]) == lines[i]
    requires last != [] && '\n' !in last
    ensures Lines(Unlines(lines) + last) == lines + [last]
  {
    LinesAfterUnlines(lines, last);
    LinesOfOneLine(last);
  }

  /** Text after complete lines is read on its own, after those lines. */
  lemma {:induction false} LinesAfterUnlines(lines: seq<string>, t: string)
    requires forall i | 0 <= i < |lines| :: '\n' !in lines[i] && StripCr(lines[i]) == lines[i]
    ensures Lines(Unlines(lines) + t) == lines + Lines(t)
  {
    if lines == [] {
      assert Unlines(lines) + t == t;
      assert lines + Lines(t) == Lines(t);
    } else {
      LinesOfUnlinesStep(lines, t);
      LinesAfterUnlines(lines[1..], t);
      FirstThenRest(lines, Lines(t));
    }
  }

  /** Putting the first line back in front of the others, then more, gives all lines, then more. */
  lemma FirstThenRest(lines: seq<string>, more: seq<string>)
    requires lines != []
    ensures [lines[0]] + (lines[1..] + more) == lines + more
  {
    assert lines == [lines[0]] + lines[1..];
  }

  /** The first of complete lines is read back first, followed by what comes after it. */
  lemma LinesOfUnlinesStep(lines: seq<string>, t: string)
    requires lines != [] && '\n' !in lines[0] && StripCr(lines[0]) == lines[0]
    ensures Lines(Unlines(lines) + t) == [lines[0]] + Lines(Unlines(lines[1..]) + t)
  {
    var l := lines[0];
    var tail := Unlines(lines[1..]) + t;
    assert Unlines(lines) + t == l + "\n" + tail;
    LinesOfFirstLine(l, tail);
  }

  /** A text without a line break is one line, kept as it is. */
  lemma LinesOfOneLine(s: string)
    requires s != [] && '\n' !in s
    ensures Lines(s) == [s]
  {
    forall j | 0 <= j <= |s|
      ensures !Strings.OccursAt(s, "\n", j)
    {
      if j < |s| {
        assert s[j..j + 1] == [s[j]];
      }
    }
  }

  /** The text up to the first line break is the first line, without its trailing carriage return. */
  lemma LinesOfFirstLine(l: string, tail: string)
    requires '\n' !in l
    ensures Lines(l + "\n" + tail) == [StripCr(l)] + Lines(tail)
  {
    var s := l + "\n" + tail;
    assert Strings.OccursAt(s, "\n", |l|);
    forall j | 0 <= j < |l|
      ensures !Strings.OccursAt(s, "\n", j)
    {
      assert s[j] == l[j];
      assert s[j..j + 1] == [s[j]];
    }
    assert Strings.Find(s, "\n") == Some(|l|);
    assert s[..|l|] == l;
    assert s[|l| + 1..] == tail;
  }

  /** The tile ids of one text row, one per character. */
  function RowTiles(line: string): (r: seq<string>)
  {
    seq(|line|, j requires 0 <= j < |line| => TileIdForChar(line[j]))
  }

  /** The tile grid of a map text: one row per line of it. */
  function ParseTiles(text: string): (r: seq<seq<string>>)
  {
    var lines := Lines(text);
    seq(|lines|, i requires 0 <= i < |lines| => RowTiles(lines[i]))
  }

  /**
   * The grid has one row per line and one tile id per character, in order;
   * every tile id comes from the character table or is "UNKNOWN".
   */
  lemma ParseTilesShape(text: string)
    ensures |ParseTiles(text)| == |Lines(text)|
    ensures forall i | 0 <= i < |Lines(text)| :: |ParseTiles(text)[i]| == |Lines(text)[i]|
    ensures forall i, j | 0 <= i < |Lines(text)| && 0 <= j < |Lines(text)[i]| ::
      ParseTiles(text)[i][j] == TileIdForChar(Lines(text)[i][j])
    ensures forall i, j | 0 <= i < |ParseTiles(text)| && 0 <= j < |ParseTiles(text)[i]| ::
      ParseTiles(text)[i][j] in TABLE_TILE_IDS + {"UNKNOWN"}
  {
    forall i, j | 0 <= i < |ParseTiles(text)| && 0 <= j < |ParseTiles(text)[i]|
      ensures ParseTiles(text)[i][j] in TABLE_TILE_IDS + {"UNKNOWN"}
    {
      TileIdForCharIsKnown(Lines(text)[i][j]);
    }
  }

  /** `from_txt_map`: the tile grid of the map after the "::GEO" tag, or the error when there is no tag. */
  method FromTxtMap(source: string) returns (r: Result<seq<seq<string>>>)
    ensures GeoSection(source).None? ==> r == Err(GEO_NOT_FOUND)
    ensures GeoSection(source).Some? ==> r == Ok(ParseTiles(GeoSection(source).value))
  {
    var section := GeoSection(source);
    if section.None? {
      return Err(GEO_NOT_FOUND);
    }
    var tiles := ParseRows(Lines(section.value));
    return Ok(tiles);
  }

  /** The loop of `from_txt_map` over the lines of the section, one tile id per character. */
  method ParseRows(txtRows: seq<string>) returns (tiles: seq<seq<string>>)
    ensures tiles == seq(|txtRows|, k requires 0 <= k < |txtRows| => RowTiles(txtRows[k]))
  {
    tiles := [];
    for i := 0 to |txtRows|
      invariant |tiles| == i
      invariant forall k | 0 <= k < i :: tiles[k] == RowTiles(txtRows[k])
    {
      var txtRow := txtRows[i];
      var rowTiles: seq<string> := [];
      for j := 0 to |txtRow|
        invariant |rowTiles| == j
        invariant forall k | 0 <= k < j :: rowTiles[k] == TileIdForChar(txtRow[k])
      {
        rowTiles := rowTiles + [TileIdForChar(txtRow[j])];
      }
      assert rowTiles == RowTiles(txtRow);
      tiles := tiles + [rowTiles];
    }
  }
}
