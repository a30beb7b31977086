/** The tile palette: colours numbered from 1 in the order given, looked up
    by a tile's colour number. */
module Palettes {
  import opened Wrappers

  /** An XNA colour: red, green, blue and alpha bytes. */
  datatype Color = Color(r: bv8, g: bv8, b: bv8, a: bv8)

  /** Dictionary.Add: fails on a key already present. */
  function Add(m: map<int, Color>, k: int, c: Color): (r: Result<map<int, Color>>)
    ensures r.Success? <==> k !in m
    ensures r.Success? ==> r.value == m[k := c]
  {
    if k in m then Failure(DuplicateKey) else Success(m[k := c])
  }

  /** ToDictionary over the (index + 1, colour) pairs from position i on,
      adding each to `acc` in order. */
  function Fill(colors: seq<Color>, i: nat, acc: map<int, Color>): (r: Result<map<int, Color>>)
    requires i <= |colors|
    ensures r.Success? <==> forall k :: i < k <= |colors| ==> k !in acc
    ensures r.Failure? ==> r.error == DuplicateKey
    ensures r.Success? ==> forall k :: k in acc ==> k in r.value && r.value[k] == acc[k]
    ensures r.Success? ==> forall k :: i < k <= |colors| ==> k in r.value && r.value[k] == colors[k - 1]
    decreases |colors| - i
  {
    if i == |colors| then Success(acc)
    else
      var next :- Add(acc, i + 1, colors[i]);
      assert forall k :: i + 1 < k <= |colors| ==> (k in next <==> k in acc);
      assert i + 1 in next;
      Fill(colors, i + 1, next)
  }

  /** m is the palette of the first n colours: keys 1..n, key k holding
      colour k - 1. */
  ghost predicate PaletteOfFirst(colors: seq<Color>, n: nat, m: map<int, Color>)
    requires n <= |colors|
  {
    && (forall k :: k in m <==> 1 <= k <= n)
    && (forall k :: k in m ==> m[k] == colors[k - 1])
  }

  /** Filling from position i the palette of the first i colours never
      meets a key twice and yields the palette of all of them. */
  lemma {:induction false} FillComplete(colors: seq<Color>, i: nat, acc: map<int, Color>)
    requires i <= |colors| && PaletteOfFirst(colors, i, acc)
    ensures Fill(colors, i, acc).Success?
    ensures PaletteOfFirst(colors, |colors|, Fill(colors, i, acc).value)
    decreases |colors| - i
  {
    if i < |colors| {
      assert i + 1 !in acc;
      var next := acc[i + 1 := colors[i]];
      assert PaletteOfFirst(colors, i + 1, next);
      FillComplete(colors, i + 1, next);
    }
  }

  /** The palette's dictionary: the i-th colour, counting from 0, is stored
      under key i + 1, and the keys are exactly 1..n. Building it never
      meets a duplicate key. */
  function NewPalette(colors: seq<Color>): (r: Result<map<int, Color>>)
    ensures r.Success?
    ensures forall k :: k in r.value <==> 1 <= k <= |colors|
    ensures forall i :: 0 <= i < |colors| ==> r.value[i + 1] == colors[i]
  {
    FillComplete(colors, 0, map[]);
    Fill(colors, 0, map[])
  }

  /** The colour stored under a tile's colour number; an absent number
      throws KeyNotFound. */
  function GetTileColor(palette: map<int, Color>, index: int): (r: Result<Color>)
    ensures r.Success? <==> index in palette
    ensures r.Success? ==> r.value == palette[index]
    ensures r.Failure? ==> r.error == KeyNotFound
  {
    if index in palette then Success(palette[index]) else Failure(KeyNotFound)
  }

  /** Looking up k in a palette of n colours gives the k-th colour counting
      from 1 when 1 <= k <= n, and throws KeyNotFound for 0, negative
      numbers and numbers above n. */
  lemma TileColorOf(colors: seq<Color>, k: int)
    ensures var r := GetTileColor(NewPalette(colors).value, k);
      && (1 <= k <= |colors| ==> r == Success(colors[k - 1]))
      && (k < 1 || |colors| < k ==> r == Failure(KeyNotFound))
  {
    var m := NewPalette(colors).value;
    if 1 <= k <= |colors| {
      assert m[(k - 1) + 1] == colors[k - 1];
    }
  }

  /** A palette holds one entry per colour. */
  lemma PaletteSize(colors: seq<Color>)
    ensures |NewPalette(colors).value| == |colors|
  {
    var m := NewPalette(colors).value;
    KeyRangeHas(|colors|);
    assert m.Keys == KeyRange(|colors|);
    KeyRangeSize(|colors|);
  }

  /** The numbers 1..n. */
  function KeyRange(n: nat): set<int> {
    if n == 0 then {} else KeyRange(n - 1) + {n}
  }

  lemma {:induction false} KeyRangeHas(n: nat)
    ensures forall k :: k in KeyRange(n) <==> 1 <= k <= n
  {
    if n > 0 {
      KeyRangeHas(n - 1);
    }
  }

  lemma {:induction false} KeyRangeSize(n: nat)
    ensures |KeyRange(n)| == n
  {
    if n > 0 {
      KeyRangeHas(n - 1);
      KeyRangeSize(n - 1);
    }
  }
}
