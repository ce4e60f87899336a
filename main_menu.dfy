/**
 * The map carousel of AndWars' main menu (package activities): the list of
 * maps read from the asset index, the selected index, and the previous /
 * next buttons that move it with wrap-around.  A map is identified by its
 * asset path; loading the map behind a path, the Android views and the
 * renderer are not part of this model.
 */
module Activities {
  import opened Wrappers

  /** The asset path of a map, with '/' separators. */
  type MapPath = string

  /**
   * The index reached by adding `value` to `index` on a list of `size` maps:
   * below 0 it wraps to the last map, at or past the end to the first.
   */
  function Moved(index: int, value: int, size: int): (r: int)
    ensures 0 < size && 0 <= index < size && (value == 1 || value == -1) ==> 0 <= r < size
    ensures 0 <= index + value < size ==> r == index + value
  {
    if index + value < 0 then size - 1
    else if index + value >= size then 0
    else index + value
  }

  lemma NextFromLastWrapsToFirst(size: int)
    requires 0 < size
    ensures Moved(size - 1, 1, size) == 0
  {
  }

  lemma PreviousFromFirstWrapsToLast(size: int)
    requires 0 < size
    ensures Moved(0, -1, size) == size - 1
  {
  }

  /** Previous then next, or next then previous, selects the map selected before. */
  lemma PreviousAndNextUndoEachOther(index: int, size: int)
    requires 0 <= index < size
    ensures Moved(Moved(index, -1, size), 1, size) == index
    ensures Moved(Moved(index, 1, size), -1, size) == index
  {
  }

  function Normalized(c: char): char {
    if c == '\\' then '/' else c
  }

  /** A line of the asset index as a path: each backslash becomes a slash, nothing else changes. */
  function NormalizePath(line: string): (r: MapPath)
    ensures |r| == |line|
    ensures forall i :: 0 <= i < |line| ==> r[i] == Normalized(line[i])
    ensures '\\' !in r
  {
    if line == [] then [] else [Normalized(line[0])] + NormalizePath(line[1..])
  }

  /** A path normalised once stays the same when normalised again. */
  lemma NormalizePathIdempotent(line: string)
    ensures NormalizePath(NormalizePath(line)) == NormalizePath(line)
  {
  }

  /** A line with no backslash is already a path. */
  lemma NormalizePathKeepsCleanLines(line: string)
    requires '\\' !in line
    ensures NormalizePath(line) == line
  {
  }

  /** readIndex on the lines of asset.index: one path per line, in file order. */
  method ReadIndex(lines: seq<string>) returns (paths: seq<MapPath>)
    ensures |paths| == |lines|
    ensures forall i :: 0 <= i < |lines| ==> paths[i] == NormalizePath(lines[i])
  {
    paths := [];
    var i := 0;
    while i < |lines|
      invariant 0 <= i <= |lines|
      invariant |paths| == i
      invariant forall j :: 0 <= j < i ==> paths[j] == NormalizePath(lines[j])
    {
      paths := paths + [NormalizePath(lines[i])];
      i := i + 1;
    }
  }

  /** getMaps: the maps of the index, or none when asset.index cannot be read (`index` is None). */
  method LoadMaps(index: Option<seq<string>>) returns (maps: seq<MapPath>)
    ensures index.None? ==> maps == []
    ensures index.Some? ==> |maps| == |index.value|
    ensures index.Some? ==> forall i :: 0 <= i < |maps| ==> maps[i] == NormalizePath(index.value[i])
  {
    match index
    case None =>
      maps := [];
    case Some(lines) =>
      maps := ReadIndex(lines);
  }

  class MainMenu {
    var mapIndex: int
    var maps: seq<MapPath>

    /** The index names a map, except on an empty list, where it can only be 0 or -1. */
    ghost predicate Valid()
      reads this
    {
      if maps == [] then -1 <= mapIndex <= 0 else 0 <= mapIndex < |maps|
    }

    /** The field initialisers and the map list that onCreate loads. */
    constructor (index: Option<seq<string>>)
      ensures Valid() && mapIndex == 0
      ensures index.None? ==> maps == []
      ensures index.Some? ==> |maps| == |index.value|
      ensures index.Some? ==> forall i :: 0 <= i < |maps| ==> maps[i] == NormalizePath(index.value[i])
    {
      mapIndex := 0;
      var loaded := LoadMaps(index);
      maps := loaded;
    }

    /** getSelectedMap: `maps[mapIndex]`, or None where the list lookup would throw. */
    function SelectedMap(): (r: Option<MapPath>)
      reads this
      ensures r.Some? <==> 0 <= mapIndex < |maps|
      ensures r.Some? ==> r.value == maps[mapIndex]
    {
      if 0 <= mapIndex < |maps| then Some(maps[mapIndex]) else None
    }

    /** On a valid carousel with at least one map there always is a selected map. */
    lemma SelectedMapExists()
      requires Valid() && maps != []
      ensures SelectedMap().Some?
    {
    }

    method MoveIndex(value: int)
      requires Valid()
      modifies this`mapIndex
      ensures value == 1 || value == -1 ==> Valid()
      ensures mapIndex == Moved(old(mapIndex), value, |maps|)
    {
      mapIndex := mapIndex + value;
      if mapIndex < 0 {
        mapIndex := |maps| - 1;
      } else if mapIndex >= |maps| {
        mapIndex := 0;
      }
    }

    /** previousMap: moves one map back and returns the map it then shows. */
    method PreviousMap() returns (shown: Option<MapPath>)
      requires Valid()
      modifies this`mapIndex
      ensures Valid()
      ensures mapIndex == Moved(old(mapIndex), -1, |maps|)
      ensures shown == SelectedMap()
    {
      MoveIndex(-1);
      shown := SelectedMap();
    }

    /** nextMap: moves one map on and returns the map it then shows. */
    method NextMap() returns (shown: Option<MapPath>)
      requires Valid()
      modifies this`mapIndex
      ensures Valid()
      ensures mapIndex == Moved(old(mapIndex), 1, |maps|)
      ensures shown == SelectedMap()
    {
      MoveIndex(1);
      shown := SelectedMap();
    }
  }
}
