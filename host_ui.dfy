/** What MainComponent shows: combo boxes as item lists, the vendor list built from the
    known types, the vendor filter, the plugin selection rule, and the order in which the
    plugin formats are offered. */
module HostUi {
  import opened Wrappers
  import opened Seqs
  import opened PluginList

  const AllVendors: string := "--- All Vendors ---"

  datatype Item = Item(text: string, id: int)

  /** The first item with this ID, if any. */
  function TextOf(items: seq<Item>, id: int): string
    decreases |items|
  {
    if items == [] then ""
    else if items[0].id == id then items[0].text
    else TextOf(items[1..], id)
  }

  predicate HasId(items: seq<Item>, id: int) {
    exists k :: 0 <= k < |items| && items[k].id == id
  }

  /** A ComboBox: its items in order and its selected ID, 0 when nothing is selected. */
  datatype ComboBox = ComboBox(items: seq<Item>, selectedId: int) {
    function NumItems(): nat { |items| }
    function Clear(): ComboBox { ComboBox([], 0) }
    function AddItem(text: string, id: int): ComboBox { ComboBox(items + [Item(text, id)], selectedId) }
    /** Selecting an ID that no item has clears the selection. */
    function SetSelectedId(id: int): ComboBox { ComboBox(items, if HasId(items, id) then id else 0) }
    function GetSelectedId(): int { selectedId }
    function GetText(): string { TextOf(items, selectedId) }
  }

  const EmptyCombo := ComboBox([], 0)

  /** The items `texts` get when added one by one with IDs firstId, firstId + 1, ... */
  function NumberedItems(texts: seq<string>, firstId: int): seq<Item> {
    seq(|texts|, k requires 0 <= k < |texts| => Item(texts[k], firstId + k))
  }

  /** The item with ID firstId + k of a numbered list is the k-th text. */
  lemma {:induction false} NumberedText(texts: seq<string>, firstId: int, k: nat)
    requires k < |texts|
    ensures TextOf(NumberedItems(texts, firstId), firstId + k) == texts[k]
    decreases |texts|
  {
    if k > 0 {
      NumberedText(texts[1..], firstId + 1, k - 1);
      assert NumberedItems(texts, firstId)[1..] == NumberedItems(texts[1..], firstId + 1);
    }
  }

  /** Adding one more text adds one item, with the next ID. */
  lemma NumberedSnoc(texts: seq<string>, firstId: int, t: string)
    ensures NumberedItems(texts + [t], firstId) == NumberedItems(texts, firstId) + [Item(t, firstId + |texts|)]
  {
  }

  function DescriptiveNames(types: seq<PluginDescription>): seq<string> {
    seq(|types|, k requires 0 <= k < |types| => types[k].descriptiveName)
  }

  lemma DescriptiveNamesSnoc(types: seq<PluginDescription>, d: PluginDescription)
    ensures DescriptiveNames(types + [d]) == DescriptiveNames(types) + [d.descriptiveName]
  {
  }

  function Manufacturers(types: seq<PluginDescription>): seq<string> {
    seq(|types|, k requires 0 <= k < |types| => types[k].manufacturerName)
  }

  /** The `vendors` array: each manufacturer name once, kept from where it first occurs. */
  function FirstOccurrences(s: seq<string>): seq<string> {
    Novel(s, [])
  }

  /** Where x first occurs in s; |s| when it does not. */
  function FirstIndex(s: seq<string>, x: string): nat
    decreases |s|
  {
    if s == [] then 0
    else if x in s[..|s| - 1] then FirstIndex(s[..|s| - 1], x)
    else if s[|s| - 1] == x then |s| - 1
    else |s|
  }

  function NonEmpty(): string -> bool {
    (v: string) => v != ""
  }

  /** The vendor entries after "--- All Vendors ---": the non-empty names, deduplicated. */
  function VendorNames(types: seq<PluginDescription>): seq<string> {
    Filter(FirstOccurrences(Manufacturers(types)), NonEmpty())
  }

  function ByFirstIndex(s: seq<string>): (string, string) -> bool {
    (a: string, b: string) => FirstIndex(s, a) < FirstIndex(s, b)
  }

  lemma {:induction false} FirstOccurrencesSpec(s: seq<string>)
    ensures forall x :: x in FirstOccurrences(s) <==> x in s
    ensures Pairwise(FirstOccurrences(s), ByFirstIndex(s))
    decreases |s|
  {
    if s != [] {
      var init := s[..|s| - 1];
      var last := s[|s| - 1];
      var r := FirstOccurrences(init);
      FirstOccurrencesSpec(init);
      assert s == init + [last];
      NovelSnoc(init, [], last);
      forall x | x in init ensures FirstIndex(s, x) == FirstIndex(init, x) && FirstIndex(init, x) < |init| {
        FirstIndexFound(init, x);
      }
      if last !in r {
        assert FirstIndex(s, last) == |init|;
        var r' := r + [last];
        forall i, j | 0 <= i < j < |r'| ensures FirstIndex(s, r'[i]) < FirstIndex(s, r'[j]) {
          assert r'[i] == r[i] && r[i] in init;
          if j < |r| {
            assert r'[j] == r[j] && r[j] in init;
            assert ByFirstIndex(init)(r[i], r[j]);
          }
        }
      } else {
        forall i, j | 0 <= i < j < |r| ensures FirstIndex(s, r[i]) < FirstIndex(s, r[j]) {
          assert r[i] in init && r[j] in init;
          assert ByFirstIndex(init)(r[i], r[j]);
        }
      }
    }
  }

  lemma {:induction false} FirstIndexFound(s: seq<string>, x: string)
    requires x in s
    ensures FirstIndex(s, x) < |s| && s[FirstIndex(s, x)] == x
    decreases |s|
  {
    var init := s[..|s| - 1];
    if x in init {
      FirstIndexFound(init, x);
    } else {
      assert s == init + [s[|s| - 1]];
    }
  }

  /** The vendor entries are the non-empty manufacturer names of the known types, each
      exactly once, in the order of their first occurrence. */
  lemma VendorNamesSpec(types: seq<PluginDescription>)
    ensures forall v :: v in VendorNames(types) <==> v != "" && exists k :: 0 <= k < |types| && types[k].manufacturerName == v
    ensures Pairwise(VendorNames(types), ByFirstIndex(Manufacturers(types)))
    ensures forall i, j :: 0 <= i < j < |VendorNames(types)| ==> VendorNames(types)[i] != VendorNames(types)[j]
  {
    var ms := Manufacturers(types);
    var vs := VendorNames(types);
    FirstOccurrencesSpec(ms);
    forall v ensures v in vs <==> v != "" && exists k :: 0 <= k < |types| && types[k].manufacturerName == v {
      FilterMembership(FirstOccurrences(ms), NonEmpty(), v);
      if v in ms {
        var k :| 0 <= k < |ms| && ms[k] == v;
        assert types[k].manufacturerName == v;
      }
      if exists k :: 0 <= k < |types| && types[k].manufacturerName == v {
        var k :| 0 <= k < |types| && types[k].manufacturerName == v;
        assert ms[k] == v;
      }
    }
    FilterKeepsPairwise(FirstOccurrences(ms), NonEmpty(), ByFirstIndex(ms));
    forall i, j | 0 <= i < j < |vs| ensures vs[i] != vs[j] {
      assert ByFirstIndex(ms)(vs[i], vs[j]);
    }
  }

  /** The vendor filter: everything when no particular vendor is selected, otherwise the
      types of that manufacturer. */
  function PassesVendor(filtered: bool, vendor: string): PluginDescription -> bool {
    (d: PluginDescription) => !filtered || d.manufacturerName == vendor
  }

  function VendorFilter(types: seq<PluginDescription>, filtered: bool, vendor: string): seq<PluginDescription> {
    Filter(types, PassesVendor(filtered, vendor))
  }

  lemma VendorFilterSpec(types: seq<PluginDescription>, filtered: bool, vendor: string)
    ensures !filtered ==> VendorFilter(types, filtered, vendor) == types
    ensures forall d :: d in VendorFilter(types, filtered, vendor) <==> d in types && (!filtered || d.manufacturerName == vendor)
    ensures forall a, b :: VendorFilter(a + b, filtered, vendor) == VendorFilter(a, filtered, vendor) + VendorFilter(b, filtered, vendor)
  {
    if !filtered {
      FilterKeepsAll(types, PassesVendor(filtered, vendor));
    }
    forall d ensures d in VendorFilter(types, filtered, vendor) <==> d in types && (!filtered || d.manufacturerName == vendor) {
      FilterMembership(types, PassesVendor(filtered, vendor), d);
    }
    forall a, b ensures VendorFilter(a + b, filtered, vendor) == VendorFilter(a, filtered, vendor) + VendorFilter(b, filtered, vendor) {
      FilterConcat(a, b, PassesVendor(filtered, vendor));
    }
  }

  predicate Selectable(d: PluginDescription, filtered: bool, vendor: string, name: string) {
    (!filtered || d.manufacturerName == vendor) && d.descriptiveName == name
  }

  /** The index of the first type that passes the vendor filter and carries the name. */
  function FirstSelectable(types: seq<PluginDescription>, filtered: bool, vendor: string, name: string): (r: Option<nat>)
    ensures r.Some? ==> r.value < |types| && Selectable(types[r.value], filtered, vendor, name) &&
                        forall j :: 0 <= j < r.value ==> !Selectable(types[j], filtered, vendor, name)
    ensures r.None? ==> forall j :: 0 <= j < |types| ==> !Selectable(types[j], filtered, vendor, name)
    decreases |types|
  {
    if types == [] then None
    else if Selectable(types[0], filtered, vendor, name) then Some(0)
    else match FirstSelectable(types[1..], filtered, vendor, name)
      case None => None
      case Some(i) => Some(i + 1)
  }

  // ---- the order of the plugin formats

  /** String::compare(a, b) <= 0: lexicographic order on characters, a prefix first. */
  predicate NameLessEq(a: string, b: string)
    decreases |a|
  {
    a == [] || (b != [] && (a[0] < b[0] || (a[0] == b[0] && NameLessEq(a[1..], b[1..]))))
  }

  lemma {:induction false} NameLessEqTotal(a: string, b: string)
    ensures NameLessEq(a, b) || NameLessEq(b, a)
    decreases |a|
  {
    if a != [] && b != [] && a[0] == b[0] {
      NameLessEqTotal(a[1..], b[1..]);
    }
  }

  lemma {:induction false} NameLessEqTransitive(a: string, b: string, c: string)
    requires NameLessEq(a, b) && NameLessEq(b, c)
    ensures NameLessEq(a, c)
    decreases |a|
  {
    if a != [] && a[0] == b[0] && b[0] == c[0] {
      NameLessEqTransitive(a[1..], b[1..], c[1..]);
    }
  }

  predicate SortedByName(formats: seq<PluginFormat>) {
    forall i, j :: 0 <= i < j < |formats| ==> NameLessEq(formats[i].name, formats[j].name)
  }

  function ByName(): (PluginFormat, PluginFormat) -> bool {
    (f: PluginFormat, g: PluginFormat) => NameLessEq(f.name, g.name)
  }

  /** Inserts f before the first format whose name is not smaller. */
  function InsertByName(f: PluginFormat, sorted: seq<PluginFormat>): (r: seq<PluginFormat>)
    ensures |r| == |sorted| + 1
    decreases |sorted|
  {
    if sorted == [] then [f]
    else if NameLessEq(f.name, sorted[0].name) then [f] + sorted
    else [sorted[0]] + InsertByName(f, sorted[1..])
  }

  /** formats.sort(AudioPluginFormatComparer): the formats ordered by name. */
  function SortByName(formats: seq<PluginFormat>): (r: seq<PluginFormat>)
    ensures |r| == |formats|
    decreases |formats|
  {
    if formats == [] then [] else InsertByName(formats[0], SortByName(formats[1..]))
  }

  lemma {:induction false} InsertByNamePermutes(f: PluginFormat, sorted: seq<PluginFormat>)
    ensures multiset(InsertByName(f, sorted)) == multiset(sorted) + multiset{f}
    decreases |sorted|
  {
    if sorted != [] {
      assert sorted == [sorted[0]] + sorted[1..];
      if !NameLessEq(f.name, sorted[0].name) {
        InsertByNamePermutes(f, sorted[1..]);
      }
    }
  }

  /** Every format of `sorted` and f itself is at least `low`, so is every format of the insertion. */
  lemma InsertByNameBounded(f: PluginFormat, sorted: seq<PluginFormat>, low: string)
    requires NameLessEq(low, f.name)
    requires forall k :: 0 <= k < |sorted| ==> NameLessEq(low, sorted[k].name)
    ensures forall k :: 0 <= k < |sorted| + 1 ==> NameLessEq(low, InsertByName(f, sorted)[k].name)
  {
    InsertByNamePermutes(f, sorted);
    forall k | 0 <= k < |sorted| + 1 ensures NameLessEq(low, InsertByName(f, sorted)[k].name) {
      var x := InsertByName(f, sorted)[k];
      assert x in multiset(sorted) + multiset{f};
      if x != f {
        assert x in sorted;
      }
    }
  }

  lemma {:induction false} InsertByNameSorted(f: PluginFormat, sorted: seq<PluginFormat>)
    requires SortedByName(sorted)
    ensures SortedByName(InsertByName(f, sorted))
    decreases |sorted|
  {
    if sorted != [] {
      var head := sorted[0];
      var rest := sorted[1..];
      if NameLessEq(f.name, head.name) {
        var r := [f] + sorted;
        forall j | 1 < j < |r| ensures NameLessEq(f.name, r[j].name) {
          NameLessEqTransitive(f.name, head.name, r[j].name);
        }
      } else {
        NameLessEqTotal(f.name, head.name);
        InsertByNameSorted(f, rest);
        InsertByNameBounded(f, rest, head.name);
        var tail := InsertByName(f, rest);
        var r := [head] + tail;
        assert forall j :: 0 < j < |r| ==> r[j] == tail[j - 1];
      }
    }
  }

  /** The sorted formats are ordered by name and are the same formats. */
  lemma {:induction false} SortByNameSpec(formats: seq<PluginFormat>)
    ensures multiset(SortByName(formats)) == multiset(formats)
    ensures SortedByName(SortByName(formats))
    decreases |formats|
  {
    if formats != [] {
      SortByNameSpec(formats[1..]);
      InsertByNamePermutes(formats[0], SortByName(formats[1..]));
      InsertByNameSorted(formats[0], SortByName(formats[1..]));
      assert formats == [formats[0]] + formats[1..];
    }
  }

  function IsTrivial(): PluginFormat -> bool {
    (f: PluginFormat) => f.trivialToScan
  }

  function IsNonTrivial(): PluginFormat -> bool {
    (f: PluginFormat) => !f.trivialToScan
  }

  function FormatNames(formats: seq<PluginFormat>): seq<string> {
    seq(|formats|, k requires 0 <= k < |formats| => formats[k].name)
  }

  lemma FormatNamesSnoc(formats: seq<PluginFormat>, f: PluginFormat)
    ensures FormatNames(formats + [f]) == FormatNames(formats) + [f.name]
  {
  }

  /** The order of the format combo box: the trivial-to-scan formats sorted by name, then
      the others in the order the format manager holds them. */
  function ComboFormatOrder(managerFormats: seq<PluginFormat>): seq<PluginFormat> {
    Filter(SortByName(managerFormats), IsTrivial()) + Filter(managerFormats, IsNonTrivial())
  }

  /** The format combo lists every format of the manager exactly as often as the manager
      holds it, trivial ones first and in name order, the others after them in manager order. */
  lemma ComboFormatOrderSpec(managerFormats: seq<PluginFormat>)
    ensures multiset(ComboFormatOrder(managerFormats)) == multiset(managerFormats)
    ensures |ComboFormatOrder(managerFormats)| == |managerFormats|
    ensures var trivial := Filter(SortByName(managerFormats), IsTrivial());
            ComboFormatOrder(managerFormats)[..|trivial|] == trivial &&
            SortedByName(trivial) &&
            (forall k :: 0 <= k < |trivial| ==> trivial[k].trivialToScan) &&
            ComboFormatOrder(managerFormats)[|trivial|..] == Filter(managerFormats, IsNonTrivial())
  {
    var sorted := SortByName(managerFormats);
    var trivial := Filter(sorted, IsTrivial());
    SortByNameSpec(managerFormats);
    assert Pairwise(sorted, ByName());
    FilterKeepsPairwise(sorted, IsTrivial(), ByName());
    FilterPermutation(sorted, managerFormats, IsTrivial());
    forall x ensures multiset(ComboFormatOrder(managerFormats))[x] == multiset(managerFormats)[x] {
      FilterCount(managerFormats, IsTrivial(), x);
      FilterCount(managerFormats, IsNonTrivial(), x);
    }
    MultisetExtensional(multiset(ComboFormatOrder(managerFormats)), multiset(managerFormats));
    assert |ComboFormatOrder(managerFormats)| == |multiset(managerFormats)|;
    forall k | 0 <= k < |trivial| ensures trivial[k].trivialToScan {
      FilterMembership(sorted, IsTrivial(), trivial[k]);
    }
  }

  /** The format the scan button hands to scanPlugins, as written: the selected item's ID
      indexes the name-sorted array. */
  function ScannedFormatAsWritten(managerFormats: seq<PluginFormat>, selectedId: int): PluginFormat
    requires 1 <= selectedId <= |managerFormats|
  {
    SortByName(managerFormats)[selectedId - 1]
  }

  /** The format the scan button is meant to scan: the one whose name the selected item shows. */
  function ScannedFormat(managerFormats: seq<PluginFormat>, selectedId: int): PluginFormat
    requires 1 <= selectedId <= |managerFormats|
  {
    ComboFormatOrderSpec(managerFormats);
    ComboFormatOrder(managerFormats)[selectedId - 1]
  }

  /** The corrected scan target is always the format the selected item names. */
  lemma ScannedFormatShown(managerFormats: seq<PluginFormat>, selectedId: int)
    requires 1 <= selectedId <= |managerFormats|
    ensures ScannedFormat(managerFormats, selectedId).name ==
              TextOf(NumberedItems(FormatNames(ComboFormatOrder(managerFormats)), 1), selectedId)
  {
    ComboFormatOrderSpec(managerFormats);
    NumberedText(FormatNames(ComboFormatOrder(managerFormats)), 1, selectedId - 1);
  }

  /** As written, a format that is not trivial to scan but sorts before a trivial one makes
      the first item show one format while the button scans another. */
  lemma AsWrittenScanMismatch()
    ensures var formats := [PluginFormat("LADSPA", false), PluginFormat("LV2", true)];
            TextOf(NumberedItems(FormatNames(ComboFormatOrder(formats)), 1), 1) == "LV2" &&
            ScannedFormatAsWritten(formats, 1).name == "LADSPA"
  {
    var formats := [PluginFormat("LADSPA", false), PluginFormat("LV2", true)];
    assert NameLessEq("LADSPA", "LV2") by {
      assert "LADSPA"[1..] == "ADSPA" && "LV2"[1..] == "V2";
      assert 'A' < 'V';
    }
    assert SortByName(formats[1..]) == [formats[1]];
    assert SortByName(formats) == formats;
    assert Filter(formats, IsTrivial()) == [formats[1]] by {
      assert formats[..1] == [formats[0]];
      assert Filter(formats[..1], IsTrivial()) == [] by {
        assert formats[..1][..0] == [];
      }
    }
    assert Filter(formats, IsNonTrivial()) == [formats[0]] by {
      assert formats[..1] == [formats[0]];
      assert Filter(formats[..1], IsNonTrivial()) == [formats[0]] by {
        assert formats[..1][..0] == [];
      }
    }
    assert ComboFormatOrder(formats) == [formats[1], formats[0]];
    NumberedText(FormatNames(ComboFormatOrder(formats)), 1, 0);
  }
}
