/// The media gallery: dropped files become items, items carry mood tags and a
/// description, and the grid shows the items that pass the tag and date
/// filters. Every handler replaces a state field with a `map`, `filter` or
/// spread of the old value; those new values are the functions below.
///
/// Random ids (`Math.random().toString(36)`), object URLs and today's date
/// (date-fns `format(new Date(), 'yyyy-MM-dd')`) are supplied per file.
module Gallery {
  import opened Common

  datatype MediaKind = Image | Video

  datatype MediaItem = MediaItem(
    id: string, url: string, kind: MediaKind, date: string,
    tags: seq<string>, description: string)

  /** A dropped file, as far as item construction looks at it. */
  datatype DroppedFile = DroppedFile(mimeType: string)

  /** What the environment supplies for one dropped file. */
  datatype Stamp = Stamp(id: string, url: string, date: string)

  /** The tag buttons shown on the filter bar and on every item. */
  const MoodTags: seq<string> := ["Joy", "Peace", "Goofy", "Romantic", "Adventure", "Cozy", "Silly", "Sweet"]

  /** `file.type.startsWith('image/') ? 'image' : 'video'`. */
  function Classify(mimeType: string): (k: MediaKind)
    ensures k == Image <==> StartsWith(mimeType, "image/")
  {
    if StartsWith(mimeType, "image/") then Image else Video
  }

  /** The item `onDrop` builds for one file: untagged and undescribed. */
  function NewItem(file: DroppedFile, stamp: Stamp): (item: MediaItem)
    ensures item.tags == [] && item.description == ""
    ensures item.id == stamp.id && item.url == stamp.url && item.date == stamp.date
    ensures item.kind == Image <==> StartsWith(file.mimeType, "image/")
  {
    MediaItem(stamp.id, stamp.url, Classify(file.mimeType), stamp.date, [], "")
  }

  /** `acceptedFiles.map(...)`: one item per file, in file order. */
  function NewItems(files: seq<DroppedFile>, stamps: seq<Stamp>): (r: seq<MediaItem>)
    requires |stamps| == |files|
    ensures |r| == |files|
    ensures forall i | 0 <= i < |r| :: r[i] == NewItem(files[i], stamps[i])
  {
    seq(|files|, i requires 0 <= i < |files| => NewItem(files[i], stamps[i]))
  }

  /** `s.includes(x) ? s.filter(t => t !== x) : [...s, x]`, used both for an item's
      tags and for the filter bar's selected tags. */
  function ToggleMembership(s: seq<string>, x: string): (r: seq<string>)
    ensures x in r <==> x !in s
    ensures forall y | y != x :: y in r <==> y in s
    ensures x !in s ==> r == s + [x]
    ensures x in s ==> multiset(r) == multiset(s)[x := 0]
  {
    if x in s then
      var r := Filter(s, Differs(x));
      assert forall y :: multiset(r)[y] == multiset(s)[x := 0][y] by {
        forall y ensures multiset(r)[y] == multiset(s)[x := 0][y] {
          FilterMultiset(s, Differs(x), y);
        }
      }
      r
    else s + [x]
  }

  /** Toggling a tag that was not there, twice, gives back the original list. */
  lemma ToggleTwiceRestores(s: seq<string>, x: string)
    requires x !in s
    ensures ToggleMembership(ToggleMembership(s, x), x) == s
  {
    FilterConcat(s, [x], Differs(x));
    FilterKeepsAll(s, Differs(x));
    assert Filter([x], Differs(x)) == [];
  }

  /** `toggleTag`: the matching items' tags are toggled, nothing else changes. */
  function ToggleItemTag(items: seq<MediaItem>, itemId: string, tag: string): (r: seq<MediaItem>)
    ensures |r| == |items|
    ensures forall i | 0 <= i < |items| && items[i].id != itemId :: r[i] == items[i]
    ensures forall i | 0 <= i < |items| && items[i].id == itemId ::
      r[i] == items[i].(tags := ToggleMembership(items[i].tags, tag)) &&
      (tag in r[i].tags <==> tag !in items[i].tags)
  {
    seq(|items|, i requires 0 <= i < |items| =>
      if items[i].id == itemId then items[i].(tags := ToggleMembership(items[i].tags, tag))
      else items[i])
  }

  /** Every tag on every item is one of `vocab`. */
  predicate TagsFrom(items: seq<MediaItem>, vocab: seq<string>) {
    forall item, t | item in items && t in item.tags :: t in vocab
  }

  /** The tag buttons offer only the mood tags, so toggling one keeps every item's tags
      among the mood tags. */
  lemma ToggleItemTagKeepsMoodTags(items: seq<MediaItem>, itemId: string, tag: string)
    requires TagsFrom(items, MoodTags) && tag in MoodTags
    ensures TagsFrom(ToggleItemTag(items, itemId, tag), MoodTags)
  {
    var r := ToggleItemTag(items, itemId, tag);
    forall item, t | item in r && t in item.tags ensures t in MoodTags {
      var i :| 0 <= i < |r| && r[i] == item;
      assert items[i] in items;
      if items[i].id == itemId && t != tag {
        assert t in items[i].tags;
      }
    }
  }

  /** `updateDescription`: the matching items get the new description, nothing else changes. */
  function SetDescription(items: seq<MediaItem>, itemId: string, description: string): (r: seq<MediaItem>)
    ensures |r| == |items|
    ensures forall i | 0 <= i < |items| && items[i].id != itemId :: r[i] == items[i]
    ensures forall i | 0 <= i < |items| && items[i].id == itemId ::
      r[i] == items[i].(description := description)
  {
    seq(|items|, i requires 0 <= i < |items| =>
      if items[i].id == itemId then items[i].(description := description) else items[i])
  }

  function ItemIdIsNot(itemId: string): (p: MediaItem -> bool)
    ensures forall item :: p(item) <==> item.id != itemId
  {
    (item: MediaItem) => item.id != itemId
  }

  /** `deleteItem`: `items.filter(item => item.id !== itemId)`. */
  function RemoveItem(items: seq<MediaItem>, itemId: string): (r: seq<MediaItem>)
    ensures forall item | item in r :: item in items && item.id != itemId
    ensures forall item | item in items && item.id != itemId :: item in r
  {
    Filter(items, ItemIdIsNot(itemId))
  }

  /** Deletion keeps the surviving items in their relative order. */
  lemma RemoveItemConcat(a: seq<MediaItem>, b: seq<MediaItem>, itemId: string)
    ensures RemoveItem(a + b, itemId) == RemoveItem(a, itemId) + RemoveItem(b, itemId)
  {
    FilterConcat(a, b, ItemIdIsNot(itemId));
  }

  /** The tag condition: no tag selected, or the item has one of the selected tags. */
  predicate MatchesTags(item: MediaItem, selectedTags: seq<string>) {
    |selectedTags| == 0 || exists t :: t in selectedTags && t in item.tags
  }

  /** The date condition: `!dateFilter || item.date === dateFilter`. */
  predicate MatchesDate(item: MediaItem, dateFilter: string) {
    dateFilter == "" || item.date == dateFilter
  }

  function Shows(selectedTags: seq<string>, dateFilter: string): (p: MediaItem -> bool)
    ensures forall item :: p(item) <==> MatchesTags(item, selectedTags) && MatchesDate(item, dateFilter)
  {
    (item: MediaItem) => MatchesTags(item, selectedTags) && MatchesDate(item, dateFilter)
  }

  /** `filteredItems`: the items that meet both conditions. */
  function FilteredItems(items: seq<MediaItem>, selectedTags: seq<string>, dateFilter: string): (r: seq<MediaItem>)
    ensures |r| <= |items|
    ensures forall item | item in r ::
      item in items && MatchesTags(item, selectedTags) && MatchesDate(item, dateFilter)
    ensures forall item | item in items && MatchesTags(item, selectedTags) && MatchesDate(item, dateFilter) ::
      item in r
  {
    Filter(items, Shows(selectedTags, dateFilter))
  }

  /** The grid keeps the order of the list it filters. */
  lemma FilteredItemsConcat(a: seq<MediaItem>, b: seq<MediaItem>, selectedTags: seq<string>, dateFilter: string)
    ensures FilteredItems(a + b, selectedTags, dateFilter) ==
            FilteredItems(a, selectedTags, dateFilter) + FilteredItems(b, selectedTags, dateFilter)
  {
    FilterConcat(a, b, Shows(selectedTags, dateFilter));
  }

  /** With no tag selected and no date chosen, the grid shows every item. */
  lemma NoFilterShowsAll(items: seq<MediaItem>)
    ensures FilteredItems(items, [], "") == items
  {
    FilterKeepsAll(items, Shows([], ""));
  }

  class GalleryPage {
    var mediaItems: seq<MediaItem>
    var selectedTags: seq<string>
    var dateFilter: string
    var isUploading: bool

    constructor ()
      ensures mediaItems == [] && selectedTags == [] && dateFilter == "" && !isUploading
    {
      mediaItems, selectedTags, dateFilter, isUploading := [], [], "", false;
    }

    /** What the grid renders. */
    function Visible(): (r: seq<MediaItem>)
      reads this
      ensures |r| <= |mediaItems| && forall item | item in r :: item in mediaItems
      ensures selectedTags == [] && dateFilter == "" ==> r == mediaItems
    {
      NoFilterShowsAll(mediaItems);
      FilteredItems(mediaItems, selectedTags, dateFilter)
    }

    /** `onDrop`: the new items go after the existing ones, which are untouched. */
    method OnDrop(files: seq<DroppedFile>, stamps: seq<Stamp>)
      requires |stamps| == |files|
      modifies this`mediaItems, this`isUploading
      ensures mediaItems == old(mediaItems) + NewItems(files, stamps)
      ensures !isUploading
    {
      isUploading := true;
      mediaItems := mediaItems + NewItems(files, stamps);
      isUploading := false;
    }

    method ToggleTag(itemId: string, tag: string)
      modifies this`mediaItems
      ensures mediaItems == ToggleItemTag(old(mediaItems), itemId, tag)
    {
      mediaItems := ToggleItemTag(mediaItems, itemId, tag);
    }

    method UpdateDescription(itemId: string, description: string)
      modifies this`mediaItems
      ensures mediaItems == SetDescription(old(mediaItems), itemId, description)
    {
      mediaItems := SetDescription(mediaItems, itemId, description);
    }

    method DeleteItem(itemId: string)
      modifies this`mediaItems
      ensures mediaItems == RemoveItem(old(mediaItems), itemId)
    {
      mediaItems := RemoveItem(mediaItems, itemId);
    }

    /** A tag button on the filter bar. */
    method ToggleSelectedTag(tag: string)
      modifies this`selectedTags
      ensures selectedTags == ToggleMembership(old(selectedTags), tag)
    {
      selectedTags := ToggleMembership(selectedTags, tag);
    }

    /** The date input's `onChange`. */
    method SetDateFilter(date: string)
      modifies this`dateFilter
      ensures dateFilter == date
    {
      dateFilter := date;
    }
  }
}
