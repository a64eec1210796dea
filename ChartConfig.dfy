/**
 * The chart configuration of the "damaged packages" overview card
 * (src/components/overview/DamagedPackageDiagram.tsx): the colour palette,
 * the per-package colour assignment with a running counter, and
 * `dataToChart`, which folds the coloured records into a dictionary.
 */
module ChartConfig {
  import opened Wrappers

  /** A record handed to the chart: field name to field value. */
  type Item = map<string, string>

  /** One entry of a chart configuration; `None` is an undefined field. */
  datatype Entry = Entry(text: Option<string>, color: Option<string>)

  /** A chart configuration: property key to entry. */
  type Config = map<string, Entry>

  /** The nine colours, in the order they are handed out. */
  const ColorPalette: seq<string> :=
    ["#FFD700", "#32CD32", "#1E90FF", "#FF69B4", "#FF6347",
     "#8A2BE2", "#FFA500", "#00CED1", "#DC143C"]

  /** The field `name` of `item`, or `None` when the record has no such field. */
  function Field(item: Item, name: string): Option<string>
  {
    if name in item then Some(item[name]) else None
  }

  /**
   * The property key `item[key]` becomes when it is used to index an object:
   * an undefined value is turned into the string "undefined".
   */
  function PropertyKey(item: Item, key: string): string
  {
    match Field(item, key)
    case Some(v) => v
    case None => "undefined"
  }

  /** The entry an item writes: its `label` field and its `fill` field. */
  function EntryOf(item: Item, labelField: string): Entry
  {
    Entry(Field(item, labelField), Field(item, "fill"))
  }

  /**
   * The configuration obtained by writing the items in list order, each one
   * overwriting whatever an earlier item wrote under the same key.
   */
  function Chart(data: seq<Item>, key: string, labelField: string): Config
  {
    if data == [] then map[]
    else
      var last := data[|data| - 1];
      Chart(data[..|data| - 1], key, labelField)[PropertyKey(last, key) := EntryOf(last, labelField)]
  }

  /** The property keys the items produce under `key`. */
  function KeysOf(data: seq<Item>, key: string): set<string>
  {
    set item | item in data :: PropertyKey(item, key)
  }

  /** `dataToChart`: one write into the dictionary per item, in list order. */
  method DataToChart(data: seq<Item>, key: string, labelField: string) returns (chartData: Config)
    ensures chartData == Chart(data, key, labelField)
  {
    chartData := map[];
    var n := 0;
    while n < |data|
      invariant 0 <= n <= |data|
      invariant chartData == Chart(data[..n], key, labelField)
    {
      var item := data[n];
      chartData := chartData[PropertyKey(item, key) := EntryOf(item, labelField)];
      assert data[..n + 1][..n] == data[..n];
      n := n + 1;
    }
    assert data[..|data|] == data;
  }

  /** The configuration has a key for exactly the values `item[key]` of the items. */
  lemma {:induction false} ChartKeys(data: seq<Item>, key: string, labelField: string)
    ensures Chart(data, key, labelField).Keys == KeysOf(data, key)
  {
    if data != [] {
      var init := data[..|data| - 1];
      ChartKeys(init, key, labelField);
      assert data == init + [data[|data| - 1]];
    }
  }

  /**
   * Last write wins: the entry under an item's key is the one that item wrote
   * whenever no later item has the same key.
   */
  lemma {:induction false} ChartLastWriteWins(data: seq<Item>, key: string, labelField: string, j: nat)
    requires j < |data|
    requires forall m :: j < m < |data| ==> PropertyKey(data[m], key) != PropertyKey(data[j], key)
    ensures PropertyKey(data[j], key) in Chart(data, key, labelField)
    ensures Chart(data, key, labelField)[PropertyKey(data[j], key)] == EntryOf(data[j], labelField)
  {
    if j < |data| - 1 {
      var init := data[..|data| - 1];
      ChartLastWriteWins(init, key, labelField, j);
    }
  }

  /** The palette slot the `n`-th item (counting from 0) is coloured from. */
  function PaletteIndex(n: nat): (k: nat)
    ensures k < |ColorPalette|
    ensures (n - k) % |ColorPalette| == 0
  {
    n % |ColorPalette|
  }

  /** The colour the `n`-th item receives. */
  function ColorAt(n: nat): string
  {
    ColorPalette[PaletteIndex(n)]
  }

  /** The spread `{ ...item, fill: color }`. */
  function WithFill(item: Item, color: string): (r: Item)
    ensures r.Keys == item.Keys + {"fill"}
    ensures Field(r, "fill") == Some(color)
    ensures forall f :: f != "fill" ==> Field(r, f) == Field(item, f)
  {
    item["fill" := color]
  }

  /** The palette holds nine different colours. */
  lemma PaletteDistinct()
    ensures forall a, b :: 0 <= a < b < |ColorPalette| ==> ColorPalette[a] != ColorPalette[b]
  {
  }

  /**
   * Colours repeat with period exactly the palette length: two items get the
   * same colour if and only if their positions agree modulo nine.
   */
  lemma ColorsRepeat(n: nat, m: nat)
    ensures ColorAt(n) == ColorAt(m) <==> n % |ColorPalette| == m % |ColorPalette|
  {
  }

  /**
   * The colouring `map` inside `DamagedPackage`: every record is copied with a
   * `fill` taken from the palette at the running counter `i`, which is
   * incremented once per record. Also returns the final value of `i`.
   */
  method ColorPackages(packages: seq<Item>) returns (dataWithColors: seq<Item>, i: nat)
    ensures |dataWithColors| == |packages|
    ensures forall n :: 0 <= n < |packages| ==> dataWithColors[n] == WithFill(packages[n], ColorAt(n))
    ensures i == |packages|
  {
    i := 0;
    dataWithColors := [];
    var n := 0;
    while n < |packages|
      invariant n <= |packages|
      invariant i == n && |dataWithColors| == n
      invariant forall m :: 0 <= m < n ==> dataWithColors[m] == WithFill(packages[m], ColorAt(m))
    {
      var fill := ColorPalette[i % |ColorPalette|];
      i := i + 1;
      dataWithColors := dataWithColors + [WithFill(packages[n], fill)];
      n := n + 1;
    }
  }

  /** Two lists whose items agree position by position on `key` produce the same keys. */
  lemma SameKeys(xs: seq<Item>, ys: seq<Item>, key: string)
    requires |xs| == |ys|
    requires forall n :: 0 <= n < |xs| ==> PropertyKey(xs[n], key) == PropertyKey(ys[n], key)
    ensures KeysOf(xs, key) == KeysOf(ys, key)
  {
  }

  /**
   * The chart configuration `DamagedPackage` builds: colour the packages, then
   * key the configuration by `component`, labelled by `component`. Each key is
   * the component of some package, and the entry holds the colour of the last
   * package with that component.
   */
  method DamagedPackageConfig(packages: seq<Item>) returns (dataWithColors: seq<Item>, d: Config)
    ensures |dataWithColors| == |packages|
    ensures d.Keys == KeysOf(packages, "component")
    ensures forall j :: 0 <= j < |packages| &&
              (forall m :: j < m < |packages| ==>
                 PropertyKey(packages[m], "component") != PropertyKey(packages[j], "component"))
              ==> d[PropertyKey(packages[j], "component")]
                  == Entry(Field(packages[j], "component"), Some(ColorAt(j)))
  {
    var count;
    dataWithColors, count := ColorPackages(packages);
    d := DataToChart(dataWithColors, "component", "component");
    assert forall n :: 0 <= n < |packages| ==>
      PropertyKey(dataWithColors[n], "component") == PropertyKey(packages[n], "component");
    ChartKeys(dataWithColors, "component", "component");
    SameKeys(dataWithColors, packages, "component");
    forall j | 0 <= j < |packages| &&
        (forall m :: j < m < |packages| ==>
           PropertyKey(packages[m], "component") != PropertyKey(packages[j], "component"))
      ensures d[PropertyKey(packages[j], "component")]
              == Entry(Field(packages[j], "component"), Some(ColorAt(j)))
    {
      ChartLastWriteWins(dataWithColors, "component", "component", j);
    }
  }
}
