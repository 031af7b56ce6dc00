/**
 * The display helpers of the main screen (src/components/Main.js): turning a
 * directory listing into list items, the size column, the padded row label,
 * and the lookup that turns a chosen item back into an index.
 */
module MainView {
  import opened Wrappers
  import opened JsBuiltins
  import ListView
  import Reducers

  /** An entry's `type` string: "directory", "symlink", or anything else, shown as a file. */
  datatype EntryType = Directory | Symlink | File

  /** A directory entry `{content, size, type}`; `content` is its name. */
  datatype Entry = Entry(content: string, size: int, kind: EntryType)

  /** A listing's `content`: an array of entries, or text. */
  datatype ListingContent = Entries(entries: seq<Entry>) | Preview(text: string)

  /** A pane's listing `{content, type}`. */
  datatype Listing = Listing(content: ListingContent, kind: EntryType)

  /** A list item `{size, path, type, label, value}`. */
  datatype Item = Item(size: int, path: string, kind: EntryType, labelText: string, value: string)

  /** What mapModel returns: list items, or the listing's content as it was. */
  datatype Data = Items(items: seq<Item>) | Unmapped(content: ListingContent)

  function ToItem(e: Entry, path: string): Item
  {
    Item(e.size, path, e.kind, e.content, path + "/" + e.content)
  }

  /**
   * mapModel: a directory listing whose content is an array becomes one item
   * per entry, in order, labelled with the entry's name and valued with its
   * full path; any other listing's content is returned unchanged.
   */
  function MapModel(listing: Listing, path: string): (r: Data)
    ensures r.Items? <==> listing.kind == Directory && listing.content.Entries?
    ensures r.Unmapped? ==> r.content == listing.content
    ensures r.Items? ==> |r.items| == |listing.content.entries|
    ensures r.Items? ==> forall i :: 0 <= i < |r.items| ==>
      && r.items[i].labelText == listing.content.entries[i].content
      && r.items[i].size == listing.content.entries[i].size
      && r.items[i].kind == listing.content.entries[i].kind
      && r.items[i].path == path
      && r.items[i].value == path + "/" + r.items[i].labelText
  {
    if listing.kind == Directory && listing.content.Entries? then
      var entries := listing.content.entries;
      Items(seq(|entries|, i requires 0 <= i < |entries| => ToItem(entries[i], path)))
    else
      Unmapped(listing.content)
  }

  /** An item's value names the entry inside the pane's directory: its parent path is the pane's path. */
  lemma ItemValueIsChildOfPath(listing: Listing, path: string, i: int)
    requires listing.kind == Directory && listing.content.Entries?
    requires 0 <= i < |listing.content.entries| && '/' !in listing.content.entries[i].content
    ensures Reducers.ParentPathOf(MapModel(listing, path).items[i].value) == path
  {
    Reducers.ParentOfChild(path, listing.content.entries[i].content);
  }

  /** formatBytes: "0" for a zero size; any other size is rendered with floating point, given here as `scaledText`. */
  function FormatBytes(bytes: int, scaledText: string): (r: string)
    ensures bytes == 0 ==> r == "0"
    ensures bytes != 0 ==> r == scaledText
  {
    if bytes == 0 then "0" else scaledText
  }

  /**
   * getSize: a directory shows its size as a decimal integer, a symlink shows
   * "~> " and the formatted size, anything else the formatted size.
   */
  function GetSize(kind: EntryType, size: int, scaledText: string): (r: string)
    ensures kind == Directory ==> r == DecimalString(size) && ParseDecimal(r) == size
    ensures kind == Symlink ==> r == "~> " + FormatBytes(size, scaledText)
    ensures kind == File ==> r == FormatBytes(size, scaledText)
  {
    if kind == Directory then
      DecimalRoundTrip(size);
      DecimalString(size)
    else if kind == Symlink then "~> " + FormatBytes(size, scaledText)
    else FormatBytes(size, scaledText)
  }

  /**
   * getLabel: a row of width w - 1 or more: a space, the label, padding
   * spaces, the size (only in the focused pane), and a closing space.
   */
  function GetLabel(isFocused: bool, labelText: string, kind: EntryType, size: int, w: int, scaledText: string): (r: string)
    ensures var shown := if isFocused then GetSize(kind, size, scaledText) else "";
      && |r| == Max(w - 1, |labelText| + |shown| + 2)
      && r[0] == ' ' && r[|r| - 1] == ' '
      && r[1..|labelText| + 1] == labelText
      && r[|r| - 1 - |shown|..|r| - 1] == shown
      && forall i :: |labelText| + 1 <= i < |r| - 1 - |shown| ==> r[i] == ' '
  {
    var fs := GetSize(kind, size, scaledText);
    var maybeFs := if isFocused then fs else "";
    var extraSpace := if isFocused then |fs| + 3 else 3;
    var spaceLength := w - |labelText| - extraSpace;
    " " + labelText + Spaces(Max(0, spaceLength)) + maybeFs + " "
  }

  /** onSelect's lookup: the index of the first entry named like the item's label, or -1. */
  function OnSelectIndex(entries: seq<Entry>, item: Item): (r: int)
    ensures -1 <= r < |entries|
    ensures r == -1 <==> forall i :: 0 <= i < |entries| ==> entries[i].content != item.labelText
    ensures r != -1 ==> entries[r].content == item.labelText && forall i :: 0 <= i < r ==> entries[i].content != item.labelText
  {
    FindIndex(entries, (e: Entry) => e.content == item.labelText)
  }

  predicate DistinctNames(entries: seq<Entry>)
  {
    forall i, j :: 0 <= i < j < |entries| ==> entries[i].content != entries[j].content
  }

  /** In a directory whose names are distinct, looking up the label of item i gives back i. */
  lemma SelectRoundTrip(listing: Listing, path: string, i: int)
    requires listing.kind == Directory && listing.content.Entries?
    requires DistinctNames(listing.content.entries)
    requires 0 <= i < |listing.content.entries|
    ensures OnSelectIndex(listing.content.entries, MapModel(listing, path).items[i]) == i
  {
    var entries := listing.content.entries;
    var r := OnSelectIndex(entries, MapModel(listing, path).items[i]);
    assert r != -1 by {
      assert entries[i].content == MapModel(listing, path).items[i].labelText;
    }
    if r < i {
      assert entries[r].content == entries[i].content;
    } else if r > i {
      assert entries[i].content == MapModel(listing, path).items[i].labelText;
    }
  }

  /**
   * A key press in the current pane, from a selection inside the listing,
   * leads onSelect to an index one above or one below the selection, inside
   * the listing.
   */
  lemma KeyPressSelectsNeighbourIndex(listing: Listing, path: string, selected: int, input: string, key: ListView.Key)
    requires listing.kind == Directory && listing.content.Entries?
    requires DistinctNames(listing.content.entries)
    requires 0 <= selected < |listing.content.entries|
    ensures var items := MapModel(listing, path).items;
      forall c :: c in ListView.OnInput(items, selected, input, key) ==>
        && c.Some?
        && var j := OnSelectIndex(listing.content.entries, c.value);
           0 <= j < |items| && (j == selected + 1 || j == selected - 1)
  {
    var items := MapModel(listing, path).items;
    ListView.CursorStaysInRange(items, selected, input, key);
    forall c | c in ListView.OnInput(items, selected, input, key)
      ensures c.Some?
      ensures var j := OnSelectIndex(listing.content.entries, c.value);
        0 <= j < |items| && (j == selected + 1 || j == selected - 1)
    {
      var j :| 0 <= j < |items| && (j == selected + 1 || j == selected - 1) && c == Some(items[j]);
      SelectRoundTrip(listing, path, j);
    }
  }
}
