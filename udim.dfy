/**
 * UDIM tiles: the tile number a texture name carries (two variants, one per
 * source file), the tile a UV coordinate falls in, the placement of the
 * textures of a directory into diffuse/ERM/normal slot arrays, and the
 * tile-consistency and resolution checks over those slots.
 */
module Udim {
  import opened Wrappers
  import opened Text
  import opened Findings
  import Png

  /** The texture names the two copies of the slot logic work with. */
  datatype Variant =
    | Scene   // `CheckUtils` in check_highpoly_lowpoly.py
    | Loader  // the module-level functions of utills.py

  /**
   * `CheckUtils.udim_number`: the integer between the first and the second
   * dot, 0 when that piece is not an integer; `None` when the name has no
   * dot at all (`IndexError`).
   */
  function SceneUdimNumber(name: string): (r: Option<int>)
    ensures r.None? <==> !ContainsChar(name, '.')
  {
    SplitHasSep(name, '.');
    var parts := Split(name, '.');
    if |parts| < 2 then None else Some(ParseInt(parts[1]).GetOr(0))
  }

  /** A name `<stem>.<n>.<ext>` with a dot-free stem carries tile `n`. */
  lemma SceneUdimNumberOf(stem: string, n: nat, ext: string)
    requires !ContainsChar(stem, '.')
    ensures SceneUdimNumber(stem + "." + NatToString(n) + "." + ext) == Some(n)
  {
    var digits := NatToString(n);
    assert !ContainsChar(digits, '.') by {
      forall i | 0 <= i < |digits| ensures digits[i] != '.' {
        assert IsDigit(digits[i]);
      }
    }
    SplitAround(digits, '.', ext);
    SplitNoSep(digits, '.');
    assert stem + "." + digits + "." + ext == stem + ['.'] + (digits + ['.'] + ext);
    SplitAround(stem, '.', digits + ['.'] + ext);
    SplitNoSep(stem, '.');
    assert Split(stem + "." + digits + "." + ext, '.')[1] == digits;
    ParseIntToString(n);
    assert IntToString(n) == digits;
  }

  /** A second piece that is not an integer gives tile 0. */
  lemma SceneUdimNumberNotInt(name: string)
    requires |Split(name, '.')| >= 2
    requires ParseInt(Split(name, '.')[1]).None?
    ensures SceneUdimNumber(name) == Some(0)
  {
    SplitHasSep(name, '.');
  }

  /** Python's `s[-k:]` start: `|s| - k`, clipped at 0. */
  function FromEnd(s: string, k: nat): nat {
    if |s| >= k then |s| - k else 0
  }

  /**
   * `utills.udim_number`: `int(name[-8:-4])`, the four characters before a
   * four-character extension; `None` when they are not an integer (`ValueError`).
   */
  function LoaderUdimNumber(name: string): Option<int> {
    var lo := FromEnd(name, 8);
    var hi := FromEnd(name, 4);
    ParseInt(if lo <= hi then name[lo..hi] else "")
  }

  /** Four digits before a four-character extension are the tile number. */
  lemma LoaderUdimNumberOf(stem: string, digits: string, ext: string)
    requires |digits| == 4 && IsDigits(digits) && |ext| == 4
    ensures LoaderUdimNumber(stem + digits + ext) == Some(DigitsValue(digits))
  {
    var name := stem + digits + ext;
    assert name[|stem|..|stem| + 4] == digits;
    ParseIntDigits(digits);
  }

  function Floor(x: real): int {
    x.Floor
  }

  function Ceil(x: real): int {
    -((-x).Floor)
  }

  /** `uv_to_udim_number(u, v)`: `1000 + 10 * floor(v) + ceil(u)`. */
  function UvToUdim(u: real, v: real): int {
    1000 + Floor(v) * 10 + Ceil(u)
  }

  /** A point of column `col` (`col - 1 < u <= col`) and row `row` (`row <= v < row + 1`) lies in tile `1000 + 10 row + col`. */
  lemma UvTile(u: real, v: real, col: int, row: int)
    requires (col - 1) as real < u <= col as real
    requires row as real <= v < (row + 1) as real
    ensures UvToUdim(u, v) == 1000 + 10 * row + col
  {
    assert Floor(v) == row;
    assert (-u).Floor == -col;
  }

  /** The unit square, open at `u = 0` and at `v = 1`, is tile 1001. */
  lemma UvFirstTile(u: real, v: real)
    requires 0.0 < u <= 1.0 && 0.0 <= v < 1.0
    ensures UvToUdim(u, v) == 1001
  {
    UvTile(u, v, 1, 0);
  }

  // ---------------------------------------------------------------------
  // Slot placement
  // ---------------------------------------------------------------------


  datatype Kind = Diffuse | Erm | Normal | Unsorted

  /** Which directory entries are textures: `.png` anywhere in the (lower-cased, for `Scene`) name. */
  predicate IsPng(v: Variant, name: string) {
    match v
    case Scene => Contains(Lower(name), ".png")
    case Loader => Contains(name, ".png")
  }

  /**
   * The set a texture goes to, by priority: diffuse or basecolor (spaces
   * ignored), then ERM (`ERM` as written for `Scene`, `_erm_` in any case
   * for `Loader`), then normal.
   */
  function KindOf(v: Variant, name: string): Kind {
    var l := Lower(name);
    if Contains(l, "diffuse") || Contains(ReplaceAll(l, " ", ""), "basecolor") then Diffuse
    else if (match v case Scene => Contains(name, "ERM") case Loader => Contains(l, "_erm_")) then Erm
    else if Contains(l, "normal") then Normal
    else Unsorted
  }

  function NumberOf(v: Variant, name: string): Option<int> {
    match v
    case Scene => SceneUdimNumber(name)
    case Loader => LoaderUdimNumber(name)
  }

  /** A texture file as placement sees it: its name, its tile number (if any) and the set its name selects. */
  datatype Texture = Texture(name: string, number: Option<int>, kind: Kind)

  function Classify(v: Variant, name: string): (t: Texture)
    ensures t.name == name
  {
    Texture(name, NumberOf(v, name), KindOf(v, name))
  }

  /** Python list indexing `xs[i]` for a list of length `n`: negative indices count from the end. */
  function PyIndex(i: int, n: nat): (r: Option<nat>)
    ensures r.Some? ==> r.value < n
    ensures r.None? <==> i >= n || i + n < 0
    ensures r.Some? && i >= 0 ==> r.value == i
    ensures r.Some? && i < 0 ==> r.value == n + i
  {
    if 0 <= i < n then Some(i)
    else if i < 0 && i + n >= 0 then Some(n + i)
    else None
  }

  /** `[f for f in os.listdir(root) if ".png" in f]` over the listed names. */
  function Pngs(v: Variant, names: seq<string>): (r: seq<string>)
    ensures |r| <= |names|
  {
    if |names| == 0 then []
    else Pngs(v, names[..|names| - 1]) + (if IsPng(v, names[|names| - 1]) then [names[|names| - 1]] else [])
  }

  /** The textures are exactly the listed names that mention `.png`, in listing order. */
  lemma {:induction false} PngsMembers(v: Variant, names: seq<string>, x: string)
    ensures x in Pngs(v, names) <==> x in names && IsPng(v, x)
  {
    if |names| > 0 {
      var p := names[..|names| - 1];
      PngsMembers(v, p, x);
      assert names == p + [names[|names| - 1]];
    }
  }

  /** The textures of the directory, classified in listing order. */
  function Textures(v: Variant, files: seq<string>): (ts: seq<Texture>)
    ensures |ts| == |files|
  {
    if |files| == 0 then [] else Textures(v, files[..|files| - 1]) + [Classify(v, files[|files| - 1])]
  }

  lemma {:induction false} TexturesAt(v: Variant, files: seq<string>, i: nat)
    requires i < |files|
    ensures Textures(v, files)[i] == Classify(v, files[i])
    decreases |files|
  {
    if i < |files| - 1 {
      TexturesAt(v, files[..|files| - 1], i);
    }
  }

  /** Some texture has no tile number: the `max` over the numbers raises. */
  predicate SomeUnnumbered(ts: seq<Texture>) {
    |ts| > 0 && (SomeUnnumbered(ts[..|ts| - 1]) || ts[|ts| - 1].number.None?)
  }

  /** The largest tile number among the textures. */
  function MaxNumber(ts: seq<Texture>): int
    requires |ts| > 0 && !SomeUnnumbered(ts)
  {
    var last := ts[|ts| - 1].number.value;
    if |ts| == 1 then last
    else
      var m := MaxNumber(ts[..|ts| - 1]);
      if last > m then last else m
  }

  /** With no texture unnumbered, each has a number and none exceeds the maximum, which one of them reaches. */
  lemma {:induction false} MaxNumberBound(ts: seq<Texture>, i: nat)
    requires i < |ts| && !SomeUnnumbered(ts)
    ensures ts[i].number.Some? && ts[i].number.value <= MaxNumber(ts)
    ensures exists k :: 0 <= k < |ts| && ts[k].number == Some(MaxNumber(ts))
    decreases |ts|
  {
    if |ts| > 1 {
      var p := ts[..|ts| - 1];
      if i < |ts| - 1 {
        assert p[i] == ts[i];
        MaxNumberBound(p, i);
      } else {
        MaxNumberBound(p, 0);
      }
      var k :| 0 <= k < |p| && p[k].number == Some(MaxNumber(p));
      assert ts[k] == p[k];
    }
  }

  /** The first unnumbered texture stops the scan: a prefix that fails makes the whole list fail. */
  lemma {:induction false} UnnumberedPrefix(ts: seq<Texture>, k: nat)
    requires k <= |ts| && SomeUnnumbered(ts[..k])
    ensures SomeUnnumbered(ts)
    decreases |ts| - k
  {
    if k < |ts| {
      assert ts[..k + 1][..k] == ts[..k];
      UnnumberedPrefix(ts, k + 1);
    } else {
      assert ts[..k] == ts;
    }
  }

  /** An unnumbered texture anywhere makes the scan fail. */
  lemma UnnumberedAt(ts: seq<Texture>, i: nat)
    requires i < |ts| && ts[i].number.None?
    ensures SomeUnnumbered(ts)
  {
    assert ts[..i + 1][..i] == ts[..i];
    UnnumberedPrefix(ts, i + 1);
  }

  /** The length of each slot array: `max(udim) - 1000`, or no slots when that is not positive. */
  function Width(count: int): nat {
    if count > 0 then count else 0
  }

  /** The slot a texture is written to: `udim - 1000 - 1` as a Python index. */
  function SlotOf(t: Texture, n: nat): Option<nat> {
    match t.number
    case None => None
    case Some(u) => PyIndex(u - 1001, n)
  }

  /** Some sorted texture has no slot: the assignment raises `IndexError`. */
  predicate SomeUnplaceable(ts: seq<Texture>, n: nat) {
    |ts| > 0 &&
    (SomeUnplaceable(ts[..|ts| - 1], n) || (ts[|ts| - 1].kind != Unsorted && SlotOf(ts[|ts| - 1], n).None?))
  }

  lemma {:induction false} UnplaceablePrefix(ts: seq<Texture>, n: nat, k: nat)
    requires k <= |ts| && SomeUnplaceable(ts[..k], n)
    ensures SomeUnplaceable(ts, n)
    decreases |ts| - k
  {
    if k < |ts| {
      assert ts[..k + 1][..k] == ts[..k];
      UnplaceablePrefix(ts, n, k + 1);
    } else {
      assert ts[..k] == ts;
    }
  }

  /** Slot `j` of set `kind` after the loop: the last texture of that kind written there, if any. */
  function LastPlaced(ts: seq<Texture>, kind: Kind, n: nat, j: nat): Option<Texture> {
    if |ts| == 0 then None
    else
      var t := ts[|ts| - 1];
      if t.kind == kind && SlotOf(t, n) == Some(j) then Some(t)
      else LastPlaced(ts[..|ts| - 1], kind, n, j)
  }

  /** The slots of a texture directory; `setsCount` is `max(udim) - 1000` and may be zero or negative. */
  datatype UdimSet = UdimSet(diffuse: seq<Option<Texture>>, erm: seq<Option<Texture>>, normal: seq<Option<Texture>>, setsCount: int)

  /** `create_udim_sets` raises: an unnumbered texture, or a sorted texture without a slot. */
  predicate Fails(ts: seq<Texture>) {
    |ts| > 0 && (SomeUnnumbered(ts) || SomeUnplaceable(ts, Width(MaxNumber(ts) - 1000)))
  }

  /** The three slot arrays of `create_udim_sets` as the loop leaves them. */
  predicate SlotsFilled(ts: seq<Texture>, s: UdimSet)
    requires !Fails(ts)
  {
    if |ts| == 0 then s == UdimSet([], [], [], 0)
    else
      var count := MaxNumber(ts) - 1000;
      var n := Width(count);
      s.setsCount == count && |s.diffuse| == n && |s.erm| == n && |s.normal| == n &&
      (forall j :: 0 <= j < n ==> s.diffuse[j] == LastPlaced(ts, Diffuse, n, j)) &&
      (forall j :: 0 <= j < n ==> s.erm[j] == LastPlaced(ts, Erm, n, j)) &&
      (forall j :: 0 <= j < n ==> s.normal[j] == LastPlaced(ts, Normal, n, j))
  }

  /** The largest tile number of a non-empty directory, scanned in order; `None` at the first unnumbered texture. */
  method ScanMax(ts: seq<Texture>) returns (top: Option<int>)
    requires |ts| > 0
    ensures top.None? <==> SomeUnnumbered(ts)
    ensures top.Some? ==> top.value == MaxNumber(ts)
  {
    var m := 0;
    var i := 0;
    while i < |ts|
      invariant 0 <= i <= |ts|
      invariant !SomeUnnumbered(ts[..i])
      invariant i > 0 ==> m == MaxNumber(ts[..i])
    {
      var u := ts[i].number;
      assert ts[..i + 1][..i] == ts[..i];
      if u.None? {
        UnnumberedPrefix(ts, i + 1);
        return None;
      }
      if i == 0 || u.value > m {
        m := u.value;
      }
      i := i + 1;
    }
    assert ts[..|ts|] == ts;
    top := Some(m);
  }

  /** The slot-filling loop over classified textures: each sorted texture at its slot, later ones overwriting earlier ones. */
  method Place(ts: seq<Texture>, n: nat) returns (r: Option<(seq<Option<Texture>>, seq<Option<Texture>>, seq<Option<Texture>>)>)
    ensures r.None? <==> SomeUnplaceable(ts, n)
    ensures r.Some? ==> |r.value.0| == n && |r.value.1| == n && |r.value.2| == n
    ensures r.Some? ==> forall j :: 0 <= j < n ==> r.value.0[j] == LastPlaced(ts, Diffuse, n, j)
    ensures r.Some? ==> forall j :: 0 <= j < n ==> r.value.1[j] == LastPlaced(ts, Erm, n, j)
    ensures r.Some? ==> forall j :: 0 <= j < n ==> r.value.2[j] == LastPlaced(ts, Normal, n, j)
  {
    var diffuse := new Option<Texture>[n](_ => None);
    var erm := new Option<Texture>[n](_ => None);
    var normal := new Option<Texture>[n](_ => None);
    var i := 0;
    while i < |ts|
      invariant 0 <= i <= |ts|
      invariant !SomeUnplaceable(ts[..i], n)
      invariant forall j :: 0 <= j < n ==> diffuse[j] == LastPlaced(ts[..i], Diffuse, n, j)
      invariant forall j :: 0 <= j < n ==> erm[j] == LastPlaced(ts[..i], Erm, n, j)
      invariant forall j :: 0 <= j < n ==> normal[j] == LastPlaced(ts[..i], Normal, n, j)
    {
      var t := ts[i];
      assert ts[..i + 1][..i] == ts[..i] && ts[..i + 1][i] == t;
      if t.kind != Unsorted {
        var slot := SlotOf(t, n);
        if slot.None? {
          UnplaceablePrefix(ts, n, i + 1);
          return None;
        }
        if t.kind == Diffuse {
          diffuse[slot.value] := Some(t);
        } else if t.kind == Erm {
          erm[slot.value] := Some(t);
        } else {
          normal[slot.value] := Some(t);
        }
      }
      i := i + 1;
    }
    assert ts[..|ts|] == ts;
    r := Some((diffuse[..], erm[..], normal[..]));
  }

  /** The slot arrays `create_udim_sets` leaves for a directory it does not reject. */
  function PlacedSet(ts: seq<Texture>): (s: UdimSet)
    requires !Fails(ts)
    ensures SlotsFilled(ts, s)
  {
    if |ts| == 0 then UdimSet([], [], [], 0)
    else
      var count := MaxNumber(ts) - 1000;
      var n := Width(count);
      UdimSet(seq(n, j requires 0 <= j < n => LastPlaced(ts, Diffuse, n, j)),
              seq(n, j requires 0 <= j < n => LastPlaced(ts, Erm, n, j)),
              seq(n, j requires 0 <= j < n => LastPlaced(ts, Normal, n, j)), count)
  }

  /** The slot arrays are determined by the directory. */
  lemma SlotsFilledUnique(ts: seq<Texture>, s: UdimSet)
    requires !Fails(ts) && SlotsFilled(ts, s)
    ensures s == PlacedSet(ts)
  {
    var p := PlacedSet(ts);
    if |ts| > 0 {
      assert s.diffuse == p.diffuse;
      assert s.erm == p.erm;
      assert s.normal == p.normal;
    }
  }

  /** A slot whose image size can be read: empty, or a texture in `sizes`. */
  predicate SlotRead(x: Option<Texture>, sizes: map<string, (int, int)>) {
    x.None? || x.value.name in sizes
  }

  /** The three slots of tile `j`, in the order `collection` lists them. */
  function Tile(s: UdimSet, j: nat): seq<Option<Texture>>
    requires Shaped(s) && j < |s.diffuse|
  {
    [s.diffuse[j], s.erm[j], s.normal[j]]
  }

  /**
   * Every filled slot has a readable size. For any other the size lookup
   * returns `None`, and indexing it raises `TypeError`.
   */
  predicate AllRead(s: UdimSet, sizes: map<string, (int, int)>)
    requires Shaped(s)
  {
    forall j :: 0 <= j < |s.diffuse| ==> SlotRead(s.diffuse[j], sizes) && SlotRead(s.erm[j], sizes) && SlotRead(s.normal[j], sizes)
  }

  /** `max_res` after the inner loop over one tile: the widest width read, starting from 0. */
  function TileMax(tile: seq<Option<Texture>>, sizes: map<string, (int, int)>): (m: int)
    ensures m >= 0
    ensures m > 0 ==> exists k :: 0 <= k < |tile| && tile[k].Some? && tile[k].value.name in sizes && sizes[tile[k].value.name].0 == m
    ensures forall k :: 0 <= k < |tile| && tile[k].Some? && tile[k].value.name in sizes ==> sizes[tile[k].value.name].0 <= m
  {
    if |tile| == 0 then 0
    else
      var m := TileMax(tile[..|tile| - 1], sizes);
      var x := tile[|tile| - 1];
      if x.Some? && x.value.name in sizes && sizes[x.value.name].0 > m then sizes[x.value.name].0 else m
  }

  /**
   * `num` after the inner loop over one tile: the tile number of the last
   * filled slot, or the value it had before when the tile is empty (the
   * variable is not reset between tiles).
   */
  function TileNum(tile: seq<Option<Texture>>, num: int): int {
    if |tile| == 0 then num
    else
      var x := tile[|tile| - 1];
      if x.Some? then Num(x) else TileNum(tile[..|tile| - 1], num)
  }

  /** `resolutions_by_number` and `num` after the first `k` tiles. */
  function Resolutions(s: UdimSet, sizes: map<string, (int, int)>, k: nat): (map<int, int>, int)
    requires Shaped(s) && k <= |s.diffuse|
  {
    if k == 0 then (map[], 0)
    else
      var (table, num) := Resolutions(s, sizes, k - 1);
      var n := TileNum(Tile(s, k - 1), num);
      var m := TileMax(Tile(s, k - 1), sizes);
      (if m != 0 then table[n := m] else table, n)
  }

  /** Each entry of the resolution table is the widest read width of a tile that has a texture of that tile number. */
  lemma {:induction false} ResolutionsSound(s: UdimSet, sizes: map<string, (int, int)>, k: nat, u: int)
    requires Shaped(s) && k <= |s.diffuse| && u in Resolutions(s, sizes, k).0
    ensures exists j :: 0 <= j < k && TileMax(Tile(s, j), sizes) == Resolutions(s, sizes, k).0[u] > 0 &&
                        (exists i :: 0 <= i < 3 && Tile(s, j)[i].Some? && Num(Tile(s, j)[i]) == u)
  {
    if k == 0 {
      assert false;
    }
    var (table, num) := Resolutions(s, sizes, k - 1);
    var t := Tile(s, k - 1);
    var n := TileNum(t, num);
    var m := TileMax(t, sizes);
    if m != 0 && u == n {
      var i := LastFilled(t, num);
      assert Tile(s, k - 1)[i].Some? && Num(Tile(s, k - 1)[i]) == u;
    } else {
      ResolutionsSound(s, sizes, k - 1, u);
    }
  }

  /** A tile with a positive width has a filled slot, and its number is the last filled slot's. */
  lemma {:induction false} LastFilled(tile: seq<Option<Texture>>, num: int) returns (i: nat)
    requires exists k :: 0 <= k < |tile| && tile[k].Some?
    ensures i < |tile| && tile[i].Some? && Num(tile[i]) == TileNum(tile, num)
  {
    var x := tile[|tile| - 1];
    if x.Some? {
      i := |tile| - 1;
    } else {
      var k :| 0 <= k < |tile| && tile[k].Some?;
      assert tile[..|tile| - 1][k] == tile[k];
      i := LastFilled(tile[..|tile| - 1], num);
    }
  }

  /** The inner loop over one tile's files; `ok` is false at the first file whose size cannot be read. */
  method ReadTile(tile: seq<Option<Texture>>, sizes: map<string, (int, int)>, num0: int) returns (ok: bool, num: int, maxRes: int)
    ensures ok <==> forall k :: 0 <= k < |tile| ==> SlotRead(tile[k], sizes)
    ensures ok ==> num == TileNum(tile, num0) && maxRes == TileMax(tile, sizes)
  {
    num, maxRes := num0, 0;
    var i := 0;
    while i < |tile|
      invariant 0 <= i <= |tile|
      invariant forall k :: 0 <= k < i ==> SlotRead(tile[k], sizes)
      invariant num == TileNum(tile[..i], num0) && maxRes == TileMax(tile[..i], sizes)
    {
      var x := tile[i];
      assert tile[..i + 1][..i] == tile[..i] && tile[..i + 1][i] == x;
      if x.Some? {
        num := Num(x);
        if x.value.name !in sizes {
          return false, num, maxRes;
        }
        var res := sizes[x.value.name].0;
        if res > maxRes {
          maxRes := res;
        }
      }
      i := i + 1;
    }
    assert tile[..|tile|] == tile;
    ok := true;
  }

  /** One more tile: its widest width, if positive, is entered under its number. */
  lemma ResolutionsNext(s: UdimSet, sizes: map<string, (int, int)>, j: nat, table: map<int, int>, num: int)
    requires Shaped(s) && j < |s.diffuse| && (table, num) == Resolutions(s, sizes, j)
    ensures var n := TileNum(Tile(s, j), num); var m := TileMax(Tile(s, j), sizes);
      Resolutions(s, sizes, j + 1) == (if m != 0 then table[n := m] else table, n)
  {
  }

  /** The resolution loop of `create_udim_sets`: `None` where a size lookup raises. */
  method ReadResolutions(s: UdimSet, sizes: map<string, (int, int)>) returns (r: Option<map<int, int>>)
    requires Shaped(s)
    ensures r.None? <==> !AllRead(s, sizes)
    ensures r.Some? ==> r.value == Resolutions(s, sizes, |s.diffuse|).0
  {
    var table: map<int, int> := map[];
    var num := 0;
    var j := 0;
    while j < |s.diffuse|
      invariant 0 <= j <= |s.diffuse|
      invariant forall i :: 0 <= i < j ==> SlotRead(s.diffuse[i], sizes) && SlotRead(s.erm[i], sizes) && SlotRead(s.normal[i], sizes)
      invariant (table, num) == Resolutions(s, sizes, j)
    {
      var t := Tile(s, j);
      assert t[0] == s.diffuse[j] && t[1] == s.erm[j] && t[2] == s.normal[j];
      var ok, n, m := ReadTile(t, sizes, num);
      if !ok {
        return None;
      }
      ResolutionsNext(s, sizes, j, table, num);
      if m != 0 {
        table := table[n := m];
      }
      num := n;
      j := j + 1;
    }
    r := Some(table);
  }

  /**
   * `create_udim_sets`: slot arrays of length `max(udim) - 1000`, each
   * texture written at `udim - 1001` into the set its name selects, later
   * textures overwriting earlier ones, then the widest width of each tile
   * by tile number; `None` where the source raises, which includes a
   * filled slot whose size cannot be read (`get_image_size` returns `None`
   * for a file that is not a PNG image).
   */
  method CreateUdimSets(v: Variant, names: seq<string>, sizes: map<string, (int, int)>) returns (r: Option<UdimSet>, resolutions: map<int, int>)
    ensures var ts := Textures(v, Pngs(v, names));
      r.None? <==> Fails(ts) || !AllRead(PlacedSet(ts), sizes)
    ensures r.Some? ==> var ts := Textures(v, Pngs(v, names));
      !Fails(ts) && r.value == PlacedSet(ts) && SlotsFilled(ts, r.value) &&
      resolutions == Resolutions(r.value, sizes, |r.value.diffuse|).0
  {
    var ts := Textures(v, Pngs(v, names));
    resolutions := map[];
    if |ts| == 0 {
      return Some(UdimSet([], [], [], 0)), resolutions;
    }
    var top := ScanMax(ts);
    if top.None? {
      return None, resolutions;
    }
    var count := top.value - 1000;
    var slots := Place(ts, Width(count));
    if slots.None? {
      return None, resolutions;
    }
    var placed := UdimSet(slots.value.0, slots.value.1, slots.value.2, count);
    SlotsFilledUnique(ts, placed);
    var table := ReadResolutions(placed, sizes);
    if table.None? {
      return None, resolutions;
    }
    r, resolutions := Some(placed), table.value;
  }

  /** The sizes `get_image_size` reads from the files of the directory, by name. */
  function ReadSizes(contents: map<string, seq<Png.byte>>): (r: map<string, (int, int)>)
    ensures forall name :: name in r <==> name in contents && Png.ImageSize(contents[name]).Some?
    ensures forall name :: name in r ==> r[name] == Png.ImageSize(contents[name]).value
  {
    map name | name in contents && Png.ImageSize(contents[name]).Some? :: Png.ImageSize(contents[name]).value
  }

  /**
   * A slot filled with a file that is not PNG data (too short, or without
   * the signature) makes `create_udim_sets` raise, though its name ends in
   * ".png".
   */
  lemma NotPngRaises(s: UdimSet, contents: map<string, seq<Png.byte>>, j: nat, i: nat)
    requires Shaped(s) && j < |s.diffuse| && i < 3 && Tile(s, j)[i].Some? && Tile(s, j)[i].value.name in contents
    requires var data := contents[Tile(s, j)[i].value.name]; |data| < 24 || !Png.IsPngData(data)
    ensures !AllRead(s, ReadSizes(contents))
  {
    Png.ImageSizeDefined(contents[Tile(s, j)[i].value.name]);
  }

  /** After `create_udim_sets` succeeds, every texture of a complete set has a readable size. */
  lemma CreatedSizesRead(s: UdimSet, sizes: map<string, (int, int)>, i: nat)
    requires Shaped(s) && Complete(s) && AllRead(s, sizes) && i < |s.diffuse|
    ensures SizeOf(s.diffuse[i].value.name, sizes).Some?
    ensures SizeOf(s.erm[i].value.name, sizes).Some?
    ensures SizeOf(s.normal[i].value.name, sizes).Some?
  {
  }

  /** What a slot holds is a texture of that set's kind whose tile number points at that slot. */
  lemma {:induction false} LastPlacedSound(ts: seq<Texture>, kind: Kind, n: nat, j: nat)
    requires LastPlaced(ts, kind, n, j).Some?
    ensures LastPlaced(ts, kind, n, j).value in ts
    ensures LastPlaced(ts, kind, n, j).value.kind == kind
    ensures SlotOf(LastPlaced(ts, kind, n, j).value, n) == Some(j)
    decreases |ts|
  {
    var t := ts[|ts| - 1];
    if !(t.kind == kind && SlotOf(t, n) == Some(j)) {
      LastPlacedSound(ts[..|ts| - 1], kind, n, j);
    }
  }

  /** A sorted texture with a slot leaves that slot of its set filled. */
  lemma {:induction false} LastPlacedComplete(ts: seq<Texture>, i: nat, n: nat)
    requires i < |ts| && SlotOf(ts[i], n).Some?
    ensures LastPlaced(ts, ts[i].kind, n, SlotOf(ts[i], n).value).Some?
    decreases |ts|
  {
    if i < |ts| - 1 {
      var t := ts[|ts| - 1];
      var j := SlotOf(ts[i], n).value;
      if !(t.kind == ts[i].kind && SlotOf(t, n) == Some(j)) {
        assert ts[..|ts| - 1][i] == ts[i];
        LastPlacedComplete(ts[..|ts| - 1], i, n);
      }
    }
  }

  /**
   * A texture occupies at most one slot of one set: the set its name
   * selects, at tile number minus 1001, or, for a number of 1000 or less,
   * counted back from the end of the arrays.
   */
  lemma PlacedOnce(ts: seq<Texture>, n: nat, k1: Kind, j1: nat, k2: Kind, j2: nat, t: Texture)
    requires LastPlaced(ts, k1, n, j1) == Some(t) && LastPlaced(ts, k2, n, j2) == Some(t)
    ensures k1 == k2 && j1 == j2
    ensures t.number.Some? && j1 < n
    ensures t.number.value >= 1001 ==> j1 == t.number.value - 1001
    ensures t.number.value < 1001 ==> j1 == n + t.number.value - 1001
  {
    LastPlacedSound(ts, k1, n, j1);
    LastPlacedSound(ts, k2, n, j2);
  }

  // ---------------------------------------------------------------------
  // Tile consistency and resolutions (`_udim_numbers_check`)
  // ---------------------------------------------------------------------

  /** Python truthiness of a slot: a texture, and not one with an empty name. */
  predicate Filled(x: Option<Texture>) {
    x.Some? && x.value.name != ""
  }

  /** `all(slots)` */
  predicate AllFilled(xs: seq<Option<Texture>>) {
    forall j :: 0 <= j < |xs| ==> Filled(xs[j])
  }

  predicate Complete(s: UdimSet) {
    AllFilled(s.diffuse) && AllFilled(s.erm) && AllFilled(s.normal)
  }

  /** Slot arrays of one length, and at most that many tiles counted. */
  predicate Shaped(s: UdimSet) {
    |s.erm| == |s.diffuse| && |s.normal| == |s.diffuse| && s.setsCount <= |s.diffuse|
  }

  /** The tile number of a slot's texture (0 for an empty slot). */
  function Num(x: Option<Texture>): int {
    if x.Some? then x.value.number.GetOr(0) else 0
  }

  /** A table cell: the tile number, or dots for an empty slot. */
  function ShownNumber(x: Option<Texture>): string {
    if x.None? then "...." else IntToString(Num(x))
  }

  /** One row of the table of an incomplete set: each cell padded to nine characters. */
  function TableRow(s: UdimSet, i: nat): string
    requires Shaped(s) && i < |s.diffuse|
  {
    LJust(ShownNumber(s.diffuse[i]), 9, ' ') + LJust(ShownNumber(s.erm[i]), 9, ' ') + LJust(ShownNumber(s.normal[i]), 9, ' ')
  }

  function TableRows(s: UdimSet, k: nat): (r: seq<string>)
    requires Shaped(s) && k <= |s.diffuse|
    ensures |r| == k && forall i :: 0 <= i < k ==> r[i] == TableRow(s, i)
  {
    seq(k, i requires 0 <= i < k => TableRow(s, i))
  }

  const TableHeader := "Diffuse  ERM      Normal   "

  /** The numbering messages: for an incomplete set the header and a row per counted tile, else none. */
  function NumberingErrors(s: UdimSet): (r: seq<string>)
    requires Shaped(s)
    ensures Complete(s) <==> r == []
    ensures !Complete(s) ==> |r| == 1 + Width(s.setsCount) && r[0] == TableHeader
  {
    if Complete(s) then [] else [TableHeader] + TableRows(s, Width(s.setsCount))
  }

  /** The tile test as written, `a != b != c`, which Python reads as `a != b and b != c`. */
  predicate ChainedMismatch(a: int, b: int, c: int) {
    a != b && b != c
  }

  /** The tile test as intended: the three numbers of a tile are not all the same. */
  predicate TileMismatch(a: int, b: int, c: int) {
    !(a == b && b == c)
  }

  /** Whenever the chained test fires, so does the intended one. */
  lemma ChainedImpliesMismatch(a: int, b: int, c: int)
    requires ChainedMismatch(a, b, c)
    ensures TileMismatch(a, b, c)
  {
  }

  /** Tile `i` fails the numbering check with the test as written. */
  predicate TileBrokenAsWritten(s: UdimSet, i: nat)
    requires Shaped(s) && i < |s.diffuse|
  {
    ChainedMismatch(Num(s.diffuse[i]), Num(s.erm[i]), Num(s.normal[i])) ||
    (i != 0 && Num(s.diffuse[i]) != Num(s.diffuse[i - 1]) + 1)
  }

  /** Tile `i` carries textures of different tiles, or (after the first) does not follow the previous diffuse tile. */
  predicate TileBroken(s: UdimSet, i: nat)
    requires Shaped(s) && i < |s.diffuse|
  {
    TileMismatch(Num(s.diffuse[i]), Num(s.erm[i]), Num(s.normal[i])) ||
    (i != 0 && Num(s.diffuse[i]) != Num(s.diffuse[i - 1]) + 1)
  }

  predicate TilesConsistent(s: UdimSet)
    requires Shaped(s)
  {
    forall i :: 0 <= i < |s.diffuse| ==> !TileBroken(s, i)
  }

  /**
   * Diffuse and ERM maps for tiles 1001 to 1003 and normal maps for 1001,
   * 1002 and 1000, as placement leaves them: the 1000 map lands in the last
   * slot (index -1), beside the 1003 diffuse and ERM maps.
   */
  function WrappedNormalSet(): UdimSet {
    UdimSet([Some(Texture("d1", Some(1001), Diffuse)), Some(Texture("d2", Some(1002), Diffuse)), Some(Texture("d3", Some(1003), Diffuse))],
            [Some(Texture("e1", Some(1001), Erm)), Some(Texture("e2", Some(1002), Erm)), Some(Texture("e3", Some(1003), Erm))],
            [Some(Texture("n1", Some(1001), Normal)), Some(Texture("n2", Some(1002), Normal)), Some(Texture("n0", Some(1000), Normal))], 3)
  }

  /** The test as written passes every tile of that set, though its last tile mixes tiles 1003 and 1000. */
  lemma ChainedMissesWrappedNormal()
    ensures Shaped(WrappedNormalSet()) && Complete(WrappedNormalSet())
    ensures SlotOf(WrappedNormalSet().normal[2].value, 3) == Some(2)
    ensures forall i :: 0 <= i < 3 ==> !TileBrokenAsWritten(WrappedNormalSet(), i)
    ensures TileBroken(WrappedNormalSet(), 2)
  {
  }

  /** The allowed texture sizes. */
  predicate AllowedSize(x: int) {
    x == 256 || x == 2048 || x == 4096
  }

  /** The errors one texture adds: each disallowed side, then a non-square size; an unreadable size is one error. */
  function SizeErrors(name: string, size: Option<(int, int)>): (r: seq<string>)
    ensures size.None? ==> |r| == 1
    ensures r == [] <==> size.Some? && AllowedSize(size.value.0) && size.value.0 == size.value.1
  {
    match size
    case None => ["Не удалось получить разрешение текстуры " + name]
    case Some((w, h)) =>
      (if AllowedSize(w) then [] else ["Недопустимое разрешение: " + name + " (" + IntToString(w) + ")"]) +
      (if AllowedSize(h) then [] else ["Недопустимое разрешение: " + name + " (" + IntToString(h) + ")"]) +
      (if w != h then ["Текстура не квадратная: " + name + " (" + IntToString(w) + "x" + IntToString(h) + ")"] else [])
  }

  function SizeOf(name: string, sizes: map<string, (int, int)>): Option<(int, int)> {
    if name in sizes then Some(sizes[name]) else None
  }

  /** A texture whose size was read, is allowed and is square. */
  predicate GoodSize(x: Option<Texture>, sizes: map<string, (int, int)>) {
    x.Some? && x.value.name in sizes && AllowedSize(sizes[x.value.name].0) && sizes[x.value.name].0 == sizes[x.value.name].1
  }

  function SlotSizeErrors(x: Option<Texture>, sizes: map<string, (int, int)>): (r: seq<string>)
    requires x.Some?
    ensures r == [] <==> GoodSize(x, sizes)
  {
    SizeErrors(x.value.name, SizeOf(x.value.name, sizes))
  }

  function TileSizeErrors(s: UdimSet, sizes: map<string, (int, int)>, i: nat): (r: seq<string>)
    requires Shaped(s) && Complete(s) && i < |s.diffuse|
    ensures r == [] <==> GoodSize(s.diffuse[i], sizes) && GoodSize(s.erm[i], sizes) && GoodSize(s.normal[i], sizes)
  {
    var a, b, c := SlotSizeErrors(s.diffuse[i], sizes), SlotSizeErrors(s.erm[i], sizes), SlotSizeErrors(s.normal[i], sizes);
    assert |a + b + c| == |a| + |b| + |c|;
    a + b + c
  }

  function SizeErrorsUpTo(s: UdimSet, sizes: map<string, (int, int)>, k: nat): seq<string>
    requires Shaped(s) && Complete(s) && k <= |s.diffuse|
  {
    if k == 0 then [] else SizeErrorsUpTo(s, sizes, k - 1) + TileSizeErrors(s, sizes, k - 1)
  }

  /** The resolution check passes exactly when every texture of the first `k` tiles has an allowed square size. */
  lemma {:induction false} SizeErrorsClean(s: UdimSet, sizes: map<string, (int, int)>, k: nat)
    requires Shaped(s) && Complete(s) && k <= |s.diffuse|
    ensures SizeErrorsUpTo(s, sizes, k) == [] <==>
      forall i :: 0 <= i < k ==> GoodSize(s.diffuse[i], sizes) && GoodSize(s.erm[i], sizes) && GoodSize(s.normal[i], sizes)
  {
    if k > 0 {
      SizeErrorsClean(s, sizes, k - 1);
      var a, b := SizeErrorsUpTo(s, sizes, k - 1), TileSizeErrors(s, sizes, k - 1);
      assert |a + b| == |a| + |b|;
    }
  }

  function Max3(a: int, b: int, c: int): int {
    if a >= b && a >= c then a else if b >= c then b else c
  }

  /** A width that does not clash with the tile's largest width `top`. */
  predicate Fits(x: int, top: int) {
    x == 256 || x == top
  }

  /** Widths of one tile: one mixed-resolution error per width that is neither 256 nor the tile's largest. */
  function MixErrors(a: int, b: int, c: int, tile: string): (r: seq<string>)
    ensures |r| <= 3
    ensures r == [] <==> Fits(a, Max3(a, b, c)) && Fits(b, Max3(a, b, c)) && Fits(c, Max3(a, b, c))
  {
    var top := Max3(a, b, c);
    var msg := "Не допускается использовать разные разрешения в одной плитке (udim: " + tile + ")";
    (if Fits(a, top) then [] else [msg]) + (if Fits(b, top) then [] else [msg]) + (if Fits(c, top) then [] else [msg])
  }

  /** `set[0][-8:-4]`: the characters of the diffuse name shown as the tile. */
  function TileLabel(name: string): string {
    var lo := FromEnd(name, 8);
    var hi := FromEnd(name, 4);
    if lo <= hi then name[lo..hi] else ""
  }

  /** A tile whose three sizes were all read is checked for mixed widths. */
  function TileMixErrors(s: UdimSet, sizes: map<string, (int, int)>, i: nat): seq<string>
    requires Shaped(s) && Complete(s) && i < |s.diffuse|
  {
    var d, e, m := s.diffuse[i].value.name, s.erm[i].value.name, s.normal[i].value.name;
    if d in sizes && e in sizes && m in sizes then MixErrors(sizes[d].0, sizes[e].0, sizes[m].0, TileLabel(d)) else []
  }

  function MixErrorsUpTo(s: UdimSet, sizes: map<string, (int, int)>, k: nat): seq<string>
    requires Shaped(s) && Complete(s) && k <= |s.diffuse|
  {
    if k == 0 then [] else MixErrorsUpTo(s, sizes, k - 1) + TileMixErrors(s, sizes, k - 1)
  }

  /** A width allowed beside `w` in one tile: `w` itself or 256. */
  predicate WidthWith(x: Option<Texture>, sizes: map<string, (int, int)>, w: int) {
    x.Some? && x.value.name in sizes && (sizes[x.value.name].0 == 256 || sizes[x.value.name].0 == w)
  }

  /** Three widths each 256 or one width `w` of at least 256 are not mixed. */
  lemma MixErrorsUniform(a: int, b: int, c: int, tile: string, w: int)
    requires w >= 256
    requires (a == 256 || a == w) && (b == 256 || b == w) && (c == 256 || c == w)
    ensures MixErrors(a, b, c, tile) == []
  {
  }

  /** A tile whose textures all have width `w` (at least 256) or 256 raises no mixed-resolution error. */
  lemma TileMixClean(s: UdimSet, sizes: map<string, (int, int)>, i: nat, w: int)
    requires Shaped(s) && Complete(s) && i < |s.diffuse| && w >= 256
    requires WidthWith(s.diffuse[i], sizes, w) && WidthWith(s.erm[i], sizes, w) && WidthWith(s.normal[i], sizes, w)
    ensures TileMixErrors(s, sizes, i) == []
  {
    var d, e, m := s.diffuse[i].value.name, s.erm[i].value.name, s.normal[i].value.name;
    MixErrorsUniform(sizes[d].0, sizes[e].0, sizes[m].0, TileLabel(d), w);
  }

  /** The three reports of `_udim_numbers_check` for one fbx file with a main mesh. */
  datatype TileReports = TileReports(numbering: Finding, resolution: Finding, mixed: Finding)

  /** The numbering loop over a complete set: three files counted per tile, and any broken tile fails the check. */
  method NumberTiles(c: Check, s: UdimSet)
    requires Shaped(s) && Complete(s)
    modifies c
    ensures c.errors == old(c.errors) && c.ids == old(c.ids) && c.directory == old(c.directory)
    ensures c.checkedCount == old(c.checkedCount) + 3 * |s.diffuse|
    ensures c.verified <==> old(c.verified) && TilesConsistent(s)
  {
    var i := 0;
    while i < |s.diffuse|
      invariant 0 <= i <= |s.diffuse|
      invariant c.errors == old(c.errors) && c.ids == old(c.ids) && c.directory == old(c.directory)
      invariant c.checkedCount == old(c.checkedCount) + 3 * i
      invariant c.verified <==> old(c.verified) && forall k :: 0 <= k < i ==> !TileBroken(s, k)
    {
      c.checkedCount := c.checkedCount + 3;
      if TileMismatch(Num(s.diffuse[i]), Num(s.erm[i]), Num(s.normal[i])) {
        c.verified := false;
      }
      if i != 0 && Num(s.diffuse[i]) != Num(s.diffuse[i - 1]) + 1 {
        c.verified := false;
      }
      assert c.verified <==> old(c.verified) && (forall k :: 0 <= k < i ==> !TileBroken(s, k)) && !TileBroken(s, i);
      i := i + 1;
    }
  }

  /** The resolution loop over a complete set: the sizes of each texture, then the widths of each tile. */
  method SizeTiles(resolution: Check, mixed: Check, s: UdimSet, sizes: map<string, (int, int)>)
    requires Shaped(s) && Complete(s) && resolution != mixed
    requires resolution.errors == [] && resolution.verified && mixed.errors == [] && mixed.verified
    modifies resolution, mixed
    ensures resolution.ids == old(resolution.ids) && mixed.ids == old(mixed.ids)
    ensures resolution.directory == old(resolution.directory) && mixed.directory == old(mixed.directory)
    ensures resolution.checkedCount == old(resolution.checkedCount) + 3 * |s.diffuse|
    ensures resolution.errors == SizeErrorsUpTo(s, sizes, |s.diffuse|) && resolution.verified == (resolution.errors == [])
    ensures mixed.errors == MixErrorsUpTo(s, sizes, |s.diffuse|) && mixed.verified == (mixed.errors == [])
  {
    var i := 0;
    while i < |s.diffuse|
      invariant 0 <= i <= |s.diffuse|
      invariant resolution.ids == old(resolution.ids) && mixed.ids == old(mixed.ids)
      invariant resolution.directory == old(resolution.directory) && mixed.directory == old(mixed.directory)
      invariant resolution.checkedCount == old(resolution.checkedCount) + 3 * i
      invariant resolution.errors == SizeErrorsUpTo(s, sizes, i) && resolution.verified == (resolution.errors == [])
      invariant mixed.errors == MixErrorsUpTo(s, sizes, i) && mixed.verified == (mixed.errors == [])
    {
      resolution.checkedCount := resolution.checkedCount + 3;
      AddErrors(resolution, TileSizeErrors(s, sizes, i));
      AddErrors(mixed, TileMixErrors(s, sizes, i));
      i := i + 1;
    }
  }

  /**
   * `_udim_numbers_check` for one fbx file with a main mesh. An incomplete
   * set fails the numbering check with the header and one table row per
   * tile, and the resolution checks are skipped. A complete set fails the
   * numbering check without a message when some tile is broken; then each
   * texture's size (read from `sizes`; a missing entry is an unreadable
   * file) is checked, and each tile whose three sizes were all read is
   * checked for mixed resolutions.
   */
  method TileChecks(fbxName: string, s: UdimSet, sizes: map<string, (int, int)>) returns (r: TileReports)
    requires Shaped(s)
    ensures r.numbering.ids == ["2.5.2.1.3б"] && r.resolution.ids == ["2.5.1.2"] && r.mixed.ids == ["2.5.1.3"]
    ensures r.numbering.directory == fbxName && r.resolution.directory == fbxName && r.mixed.directory == fbxName
    ensures r.numbering.errors == NumberingErrors(s)
    ensures r.numbering.verified <==> Complete(s) && TilesConsistent(s)
    ensures r.numbering.checkedCount == 3 * |s.diffuse| + (if Complete(s) then 3 * |s.diffuse| else 0)
    ensures r.resolution.errors == (if Complete(s) then SizeErrorsUpTo(s, sizes, |s.diffuse|) else [])
    ensures r.resolution.verified <==> r.resolution.errors == []
    ensures r.resolution.checkedCount == (if Complete(s) then 3 * |s.diffuse| else 0)
    ensures r.mixed.errors == (if Complete(s) then MixErrorsUpTo(s, sizes, |s.diffuse|) else [])
    ensures r.mixed.verified <==> r.mixed.errors == []
  {
    var numbering := new Check("Проверка UDIM. Целостность нумерации", fbxName, true, "таблица 2, п. 5, п/п 2.1.3", "файлов", ["2.5.2.1.3б"]);
    var resolution := new Check("Проверка UDIM. Разрешение текстурных наборов", fbxName, true, "таблица 2, п. 5, п/п 1.2, 1.3, 3.1.1, 3.1.2", "файлов", ["2.5.1.2"]);
    var mixed := new Check("Проверка UDIM. Разрешение текстурных наборов", fbxName, true, "таблица 2, п. 5, п/п 1.2, 1.3, 3.1.1, 3.1.2", "файлов", ["2.5.1.3"]);
    numbering.checkedCount := 3 * |s.diffuse|;
    if !Complete(s) {
      AddErrors(numbering, [TableHeader] + TableRows(s, Width(s.setsCount)));
    } else {
      NumberTiles(numbering, s);
      SizeTiles(resolution, mixed, s, sizes);
    }
    r := TileReports(numbering.Snapshot(), resolution.Snapshot(), mixed.Snapshot());
  }

  /**
   * For slots filled from textures whose tile numbers are all above 1000,
   * every texture sits at its own tile, so a complete set passes the
   * numbering check.
   */
  lemma PlacedSetConsistent(ts: seq<Texture>, s: UdimSet)
    requires !Fails(ts) && SlotsFilled(ts, s)
    requires forall i :: 0 <= i < |ts| ==> ts[i].number.GetOr(0) >= 1001
    requires Complete(s)
    ensures Shaped(s) && TilesConsistent(s)
  {
    if |ts| > 0 {
      var n := |s.diffuse|;
      forall j | 0 <= j < n
        ensures Num(s.diffuse[j]) == j + 1001 && Num(s.erm[j]) == j + 1001 && Num(s.normal[j]) == j + 1001
      {
        AtOwnTile(ts, Diffuse, n, j);
        AtOwnTile(ts, Erm, n, j);
        AtOwnTile(ts, Normal, n, j);
      }
    }
  }

  lemma AtOwnTile(ts: seq<Texture>, kind: Kind, n: nat, j: nat)
    requires forall i :: 0 <= i < |ts| ==> ts[i].number.GetOr(0) >= 1001
    requires LastPlaced(ts, kind, n, j).Some?
    ensures Num(LastPlaced(ts, kind, n, j)) == j + 1001
  {
    var t := LastPlaced(ts, kind, n, j).value;
    LastPlacedSound(ts, kind, n, j);
    var i :| 0 <= i < |ts| && ts[i] == t;
  }
}
