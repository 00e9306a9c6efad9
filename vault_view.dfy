/**
 * The list logic of the vault page: the items it shows (the current folder's
 * folders, then its files), the search filter, the sort with folders first, the
 * total size, the file icon and preview rules, and the page state that folder
 * navigation and preview navigation update.
 */
module VaultView {
  import opened Wrappers
  import opened JsString

  /** A folder as the folder listing hands it to the page. */
  datatype PageFolder = PageFolder(id: string, name: string, parentId: Option<string>, createdAt: string)

  /** A file as the file listing hands it to the page: the size is a decimal string and
      the creation time a date string. */
  datatype PageFile = PageFile(id: string, filename: string, mimeType: string, sizeBytes: string, createdAt: string, folderId: Option<string>)

  /** A `ContentItem`. */
  datatype Item = FolderItem(folder: PageFolder) | FileEntry(file: PageFile)

  datatype SortField = ByName | ByDate | BySize | ByType

  /** The locale-dependent parts of the comparator: `localeCompare`, and `new Date(s).getTime()`
      with `None` for an invalid date (NaN). */
  datatype Orderings = Orderings(localeCompare: (string, string) -> int, timeOf: string -> Option<int>)

  /** `items`: the folders, then the files, each in listing order. */
  function Items(folders: seq<PageFolder>, files: seq<PageFile>): (items: seq<Item>)
    ensures |items| == |folders| + |files|
    ensures forall i :: 0 <= i < |folders| ==> items[i] == FolderItem(folders[i])
    ensures forall i :: 0 <= i < |files| ==> items[|folders| + i] == FileEntry(files[i])
  {
    seq(|folders|, i requires 0 <= i < |folders| => FolderItem(folders[i]))
      + seq(|files|, i requires 0 <= i < |files| => FileEntry(files[i]))
  }

  // ---------------------------------------------------------------------------
  // Search

  /** The filter's test: a folder by its name, a file by its name or its MIME type, each
      compared lower-cased against the lower-cased query. */
  predicate Matches(item: Item, query: string) {
    match item
    case FolderItem(f) => Contains(Lower(f.name), Lower(query))
    case FileEntry(f) => Contains(Lower(f.filename), Lower(query)) || Contains(Lower(f.mimeType), Lower(query))
  }

  /** `items.filter(...)`. */
  function Filter(items: seq<Item>, query: string): seq<Item>
    decreases |items|
  {
    if items == [] then []
    else (if Matches(items[0], query) then [items[0]] else []) + Filter(items[1..], query)
  }

  /** The filter keeps an item exactly when it matches the query, never adds one, and
      keeps each matching item as often as it occurs. */
  lemma {:induction false} FilterKeepsMatches(items: seq<Item>, query: string)
    ensures forall x :: x in Filter(items, query) <==> x in items && Matches(x, query)
    ensures multiset(Filter(items, query)) <= multiset(items)
    ensures forall x :: multiset(Filter(items, query))[x] == if Matches(x, query) then multiset(items)[x] else 0
    ensures |Filter(items, query)| <= |items|
    decreases |items|
  {
    if items != [] {
      FilterKeepsMatches(items[1..], query);
      assert items == [items[0]] + items[1..];
    }
  }

  /** The filter keeps the order of the items it keeps: it is the identity on a list
      that matches throughout. */
  lemma {:induction false} FilterKeepsAllMatching(items: seq<Item>, query: string)
    requires forall i :: 0 <= i < |items| ==> Matches(items[i], query)
    ensures Filter(items, query) == items
    decreases |items|
  {
    if items != [] {
      FilterKeepsAllMatching(items[1..], query);
      assert items == [items[0]] + items[1..];
    }
  }

  /** An empty search box keeps every item, in order. */
  lemma EmptyQueryKeepsAll(items: seq<Item>)
    ensures Filter(items, "") == items
  {
    forall i | 0 <= i < |items|
      ensures Matches(items[i], "")
    {
      assert Lower("") == "";
      match items[i]
      case FolderItem(f) => ContainsEmpty(Lower(f.name));
      case FileEntry(f) => ContainsEmpty(Lower(f.filename));
    }
    FilterKeepsAllMatching(items, "");
  }

  // ---------------------------------------------------------------------------
  // Sorting

  /** `parseInt(sizeBytes)` for a file, 0 for a folder; `None` is NaN. */
  function SizeOf(item: Item): Option<nat> {
    if item.FolderItem? then Some(0) else ParseInt(item.file.sizeBytes)
  }

  /** The name the name sort compares, and the type the type sort compares. */
  function NameOf(item: Item): string {
    if item.FolderItem? then item.folder.name else item.file.filename
  }

  function TypeOf(item: Item): string {
    if item.FolderItem? then "[FOLDER]" else item.file.mimeType
  }

  function CreatedAtOf(item: Item): string {
    if item.FolderItem? then item.folder.createdAt else item.file.createdAt
  }

  /** `b - a` on two numbers that may be NaN; a comparator's NaN counts as 0. */
  function Difference(a: Option<int>, b: Option<int>): int {
    if a.Some? && b.Some? then b.value - a.value else 0
  }

  /** The comparator: a folder before a file, then by the chosen field; sizes and dates
      descend. */
  function Compare(o: Orderings, field: SortField, a: Item, b: Item): int {
    if a.FolderItem? && b.FileEntry? then -1
    else if a.FileEntry? && b.FolderItem? then 1
    else
      match field
      case ByName => o.localeCompare(NameOf(a), NameOf(b))
      case BySize => Difference(SizeOf(a), SizeOf(b))
      case ByType => o.localeCompare(TypeOf(a), TypeOf(b))
      case ByDate => Difference(o.timeOf(CreatedAtOf(a)), o.timeOf(CreatedAtOf(b)))
  }

  /** Insertion of `x` into a sorted list, after every item it does not precede. */
  function Insert(o: Orderings, field: SortField, x: Item, s: seq<Item>): seq<Item>
    decreases |s|
  {
    if s == [] then [x]
    else if Compare(o, field, x, s[0]) < 0 then [x] + s
    else [s[0]] + Insert(o, field, x, s[1..])
  }

  /** A stable sort with `Compare`, inserting the items one by one in list order. */
  function Sort(o: Orderings, field: SortField, items: seq<Item>): seq<Item>
    decreases |items|
  {
    if items == [] then []
    else Insert(o, field, items[|items| - 1], Sort(o, field, items[..|items| - 1]))
  }

  /** `filteredItems`. */
  function FilteredItems(o: Orderings, field: SortField, query: string, folders: seq<PageFolder>, files: seq<PageFile>): seq<Item> {
    Sort(o, field, Filter(Items(folders, files), query))
  }

  /** No file precedes a folder. */
  predicate FoldersFirst(s: seq<Item>) {
    forall i, j :: 0 <= i < j < |s| ==> !(s[i].FileEntry? && s[j].FolderItem?)
  }

  /** The key a numeric sort descends by: the size, or the creation time. */
  function Key(o: Orderings, field: SortField, item: Item): Option<int> {
    if field.BySize? then SizeOf(item) else o.timeOf(CreatedAtOf(item))
  }

  /** Among items of the same kind the key descends. */
  predicate KeyDescending(o: Orderings, field: SortField, s: seq<Item>)
    requires forall i :: 0 <= i < |s| ==> Key(o, field, s[i]).Some?
  {
    forall i, j :: 0 <= i < j < |s| && s[i].FolderItem? == s[j].FolderItem? ==>
      Key(o, field, s[i]).value >= Key(o, field, s[j]).value
  }

  predicate NumericField(field: SortField) {
    field.BySize? || field.ByDate?
  }

  predicate KeysDefined(o: Orderings, field: SortField, s: seq<Item>) {
    forall i :: 0 <= i < |s| ==> Key(o, field, s[i]).Some?
  }

  lemma {:induction false} InsertElements(o: Orderings, field: SortField, x: Item, s: seq<Item>)
    ensures multiset(Insert(o, field, x, s)) == multiset(s) + multiset{x}
    ensures forall z :: z in Insert(o, field, x, s) <==> z == x || z in s
    decreases |s|
  {
    if s != [] && Compare(o, field, x, s[0]) >= 0 {
      InsertElements(o, field, x, s[1..]);
      assert s == [s[0]] + s[1..];
    }
  }

  /** Insertion keeps folders first. */
  lemma {:induction false} InsertKeepsFoldersFirst(o: Orderings, field: SortField, x: Item, s: seq<Item>)
    requires FoldersFirst(s)
    ensures FoldersFirst(Insert(o, field, x, s))
    decreases |s|
  {
    if s == [] {
    } else if Compare(o, field, x, s[0]) < 0 {
      if x.FileEntry? {
        // `x` is a file that precedes `s[0]`, so `s[0]` is a file, and so is all of `s`.
        assert s[0].FileEntry?;
        assert forall k :: 0 <= k < |s| ==> s[k].FileEntry?;
      }
      assert Insert(o, field, x, s) == [x] + s;
    } else {
      var t := Insert(o, field, x, s[1..]);
      InsertKeepsFoldersFirst(o, field, x, s[1..]);
      InsertElements(o, field, x, s[1..]);
      assert Insert(o, field, x, s) == [s[0]] + t;
      forall j | 0 <= j < |t|
        ensures !(s[0].FileEntry? && t[j].FolderItem?)
      {
        if t[j] != x {
          assert t[j] in s[1..];
          var k :| 0 <= k < |s[1..]| && s[1..][k] == t[j];
          assert s[k + 1] == t[j];
        }
      }
    }
  }

  /** Insertion keeps every key defined. */
  lemma InsertKeepsKeysDefined(o: Orderings, field: SortField, x: Item, s: seq<Item>)
    requires KeysDefined(o, field, s) && Key(o, field, x).Some?
    ensures KeysDefined(o, field, Insert(o, field, x, s))
  {
    InsertElements(o, field, x, s);
    var r := Insert(o, field, x, s);
    forall i | 0 <= i < |r|
      ensures Key(o, field, r[i]).Some?
    {
      assert r[i] in r;
      if r[i] != x {
        var k :| 0 <= k < |s| && s[k] == r[i];
      }
    }
  }

  /** An item the comparator puts before the head of a sorted list keeps the keys
      descending when it is put in front. */
  lemma PrependKeepsKeyDescending(o: Orderings, field: SortField, x: Item, s: seq<Item>)
    requires NumericField(field) && s != []
    requires KeysDefined(o, field, s) && Key(o, field, x).Some?
    requires FoldersFirst(s) && KeyDescending(o, field, s)
    requires Compare(o, field, x, s[0]) < 0
    ensures KeysDefined(o, field, [x] + s)
    ensures KeyDescending(o, field, [x] + s)
  {
    var r := [x] + s;
    assert KeysDefined(o, field, r) by {
      assert forall i :: 1 <= i < |r| ==> r[i] == s[i - 1];
    }
    forall j | 0 <= j < |s|
      ensures x.FolderItem? == s[j].FolderItem? ==> Key(o, field, x).value >= Key(o, field, s[j]).value
    {
      if x.FolderItem? == s[0].FolderItem? {
        assert Key(o, field, x).value > Key(o, field, s[0]).value;
        if j > 0 && s[0].FolderItem? == s[j].FolderItem? {
          assert Key(o, field, s[0]).value >= Key(o, field, s[j]).value;
        }
      } else {
        // `x` is a folder and `s[0]` a file, so all of `s` is files.
        assert s[0].FileEntry?;
        assert s[j].FileEntry?;
      }
    }
    assert forall i :: 1 <= i < |r| ==> r[i] == s[i - 1];
  }

  /** Insertion keeps keys descending within each kind when every key is defined. */
  lemma {:induction false} InsertKeepsKeyDescending(o: Orderings, field: SortField, x: Item, s: seq<Item>)
    requires NumericField(field)
    requires KeysDefined(o, field, s) && Key(o, field, x).Some?
    requires FoldersFirst(s) && KeyDescending(o, field, s)
    ensures KeysDefined(o, field, Insert(o, field, x, s))
    ensures KeyDescending(o, field, Insert(o, field, x, s))
    decreases |s|
  {
    InsertKeepsKeysDefined(o, field, x, s);
    if s == [] {
    } else if Compare(o, field, x, s[0]) < 0 {
      assert Insert(o, field, x, s) == [x] + s;
      PrependKeepsKeyDescending(o, field, x, s);
    } else {
      var t := Insert(o, field, x, s[1..]);
      InsertKeepsKeyDescending(o, field, x, s[1..]);
      InsertElements(o, field, x, s[1..]);
      assert Insert(o, field, x, s) == [s[0]] + t;
      forall j | 0 <= j < |t| && s[0].FolderItem? == t[j].FolderItem?
        ensures Key(o, field, s[0]).value >= Key(o, field, t[j]).value
      {
        if t[j] != x {
          assert t[j] in s[1..];
          var k :| 0 <= k < |s[1..]| && s[1..][k] == t[j];
          assert s[k + 1] == t[j];
        }
      }
      ConsKeyDescending(o, field, s[0], t);
    }
  }

  /** A head whose key is at least every later key of its kind extends a descending list. */
  lemma ConsKeyDescending(o: Orderings, field: SortField, y: Item, t: seq<Item>)
    requires KeysDefined(o, field, t) && Key(o, field, y).Some?
    requires KeyDescending(o, field, t)
    requires forall j :: 0 <= j < |t| && y.FolderItem? == t[j].FolderItem? ==> Key(o, field, y).value >= Key(o, field, t[j]).value
    ensures KeysDefined(o, field, [y] + t)
    ensures KeyDescending(o, field, [y] + t)
  {
    var r := [y] + t;
    assert forall i :: 1 <= i < |r| ==> r[i] == t[i - 1];
  }

  /** The sort returns a permutation of its input. */
  lemma {:induction false} SortPermutes(o: Orderings, field: SortField, items: seq<Item>)
    ensures multiset(Sort(o, field, items)) == multiset(items)
    decreases |items|
  {
    if items != [] {
      var init, last := items[..|items| - 1], items[|items| - 1];
      SortPermutes(o, field, init);
      InsertElements(o, field, last, Sort(o, field, init));
      assert items == init + [last];
    }
  }

  /** Whatever the sort field, and whatever the locale orderings are, every folder
      precedes every file. */
  lemma {:induction false} SortPutsFoldersFirst(o: Orderings, field: SortField, items: seq<Item>)
    ensures FoldersFirst(Sort(o, field, items))
    decreases |items|
  {
    if items != [] {
      SortPutsFoldersFirst(o, field, items[..|items| - 1]);
      InsertKeepsFoldersFirst(o, field, items[|items| - 1], Sort(o, field, items[..|items| - 1]));
    }
  }

  /** By size (or by date) with every size (date) readable, larger (newer) items come
      first among the files, and among the folders. */
  lemma {:induction false} SortDescendsByKey(o: Orderings, field: SortField, items: seq<Item>)
    requires NumericField(field) && KeysDefined(o, field, items)
    ensures KeysDefined(o, field, Sort(o, field, items))
    ensures KeyDescending(o, field, Sort(o, field, items))
    decreases |items|
  {
    if items != [] {
      var init, last := items[..|items| - 1], items[|items| - 1];
      assert KeysDefined(o, field, init) by {
        forall i | 0 <= i < |init|
          ensures Key(o, field, init[i]).Some?
        {
          assert init[i] == items[i];
        }
      }
      SortDescendsByKey(o, field, init);
      SortPutsFoldersFirst(o, field, init);
      InsertKeepsKeyDescending(o, field, last, Sort(o, field, init));
    }
  }

  /** The shown list: exactly the matching items, each as often as listed, folders
      first. */
  lemma FilteredItemsProperties(o: Orderings, field: SortField, query: string, folders: seq<PageFolder>, files: seq<PageFile>)
    ensures var shown := FilteredItems(o, field, query, folders, files);
      && multiset(shown) == multiset(Filter(Items(folders, files), query))
      && (forall x :: multiset(shown)[x] == if Matches(x, query) then multiset(Items(folders, files))[x] else 0)
      && (forall x :: x in shown <==> x in Items(folders, files) && Matches(x, query))
      && FoldersFirst(shown)
  {
    var items := Items(folders, files);
    var kept := Filter(items, query);
    SortPermutes(o, field, kept);
    FilterKeepsMatches(items, query);
    SortPutsFoldersFirst(o, field, kept);
    var shown := Sort(o, field, kept);
    assert forall x :: x in shown <==> x in kept by {
      forall x
        ensures x in shown <==> x in kept
      {
        assert x in shown <==> multiset(shown)[x] > 0;
        assert x in kept <==> multiset(kept)[x] > 0;
      }
    }
  }

  /** Sorted by size with every size readable, larger files come first. */
  lemma FilteredItemsBySize(o: Orderings, query: string, folders: seq<PageFolder>, files: seq<PageFile>)
    requires forall i :: 0 <= i < |files| ==> ParseInt(files[i].sizeBytes).Some?
    ensures var shown := FilteredItems(o, BySize, query, folders, files);
      forall i, j :: 0 <= i < j < |shown| && shown[i].FileEntry? && shown[j].FileEntry? ==>
        && ParseInt(shown[i].file.sizeBytes).Some? && ParseInt(shown[j].file.sizeBytes).Some?
        && ParseInt(shown[i].file.sizeBytes).value >= ParseInt(shown[j].file.sizeBytes).value
  {
    var items := Items(folders, files);
    var kept := Filter(items, query);
    FilterKeepsMatches(items, query);
    forall i | 0 <= i < |kept|
      ensures Key(o, BySize, kept[i]).Some?
    {
      assert kept[i] in kept;
      if kept[i].FileEntry? {
        var k :| 0 <= k < |items| && items[k] == kept[i];
        assert items[k] == FileEntry(files[k - |folders|]);
      }
    }
    SortDescendsByKey(o, BySize, kept);
    var shown := Sort(o, BySize, kept);
    forall i, j | 0 <= i < j < |shown| && shown[i].FileEntry? && shown[j].FileEntry?
      ensures && ParseInt(shown[i].file.sizeBytes).Some? && ParseInt(shown[j].file.sizeBytes).Some?
              && ParseInt(shown[i].file.sizeBytes).value >= ParseInt(shown[j].file.sizeBytes).value
    {
      assert Key(o, BySize, shown[i]) == ParseInt(shown[i].file.sizeBytes);
      assert Key(o, BySize, shown[j]) == ParseInt(shown[j].file.sizeBytes);
    }
  }

  // ---------------------------------------------------------------------------
  // Totals, icons, preview

  /** `files.reduce((acc, file) => acc + parseInt(file.sizeBytes), 0)`; NaN (`None`)
      absorbs the sum. */
  function TotalSize(files: seq<PageFile>): (total: Option<nat>)
    ensures total.None? <==> exists i :: 0 <= i < |files| && ParseInt(files[i].sizeBytes).None?
    decreases |files|
  {
    if files == [] then Some(0)
    else
      var rest := TotalSize(files[..|files| - 1]);
      var last := ParseInt(files[|files| - 1].sizeBytes);
      assert forall i :: 0 <= i < |files| - 1 ==> files[..|files| - 1][i] == files[i];
      if rest.Some? && last.Some? then Some(rest.value + last.value) else None
  }

  function Sum(sizes: seq<nat>): nat
    decreases |sizes|
  {
    if sizes == [] then 0 else Sum(sizes[..|sizes| - 1]) + sizes[|sizes| - 1]
  }

  /** When every size parses, the total is the sum of the parsed sizes. */
  lemma {:induction false} TotalOfParsed(files: seq<PageFile>, sizes: seq<nat>)
    requires |files| == |sizes|
    requires forall i :: 0 <= i < |files| ==> ParseInt(files[i].sizeBytes) == Some(sizes[i])
    ensures TotalSize(files) == Some(Sum(sizes))
    decreases |files|
  {
    if files != [] {
      var n := |files| - 1;
      var init, initSizes := files[..n], sizes[..n];
      assert forall i :: 0 <= i < n ==> init[i] == files[i] && initSizes[i] == sizes[i];
      TotalOfParsed(init, initSizes);
      assert ParseInt(files[n].sizeBytes) == Some(sizes[n]);
      assert Sum(sizes) == Sum(initSizes) + sizes[n];
    }
  }

  /** For a listing whose sizes are the decimal renderings of the stored sizes, the
      total is their sum. */
  lemma TotalOfListing(files: seq<PageFile>, sizes: seq<nat>)
    requires |files| == |sizes|
    requires forall i :: 0 <= i < |files| ==> files[i].sizeBytes == Decimal(sizes[i])
    ensures TotalSize(files) == Some(Sum(sizes))
  {
    forall i | 0 <= i < |files|
      ensures ParseInt(files[i].sizeBytes) == Some(sizes[i])
    {
      ParseIntOfDecimal(sizes[i]);
    }
    TotalOfParsed(files, sizes);
  }

  datatype Icon = ImageIcon | VideoIcon | AudioIcon | PdfIcon | ArchiveIcon | GenericIcon

  /** `getFileIcon`: the first rule that applies, in order. */
  function FileIcon(mimeType: string): Icon {
    if StartsWith(mimeType, "image/") then ImageIcon
    else if StartsWith(mimeType, "video/") then VideoIcon
    else if StartsWith(mimeType, "audio/") then AudioIcon
    else if Contains(mimeType, "pdf") then PdfIcon
    else if Contains(mimeType, "zip") || Contains(mimeType, "rar") then ArchiveIcon
    else GenericIcon
  }

  /** `canPreview`. */
  predicate CanPreview(mimeType: string) {
    StartsWith(mimeType, "image/") || StartsWith(mimeType, "video/") || Contains(mimeType, "pdf")
  }

  /** Image, video and PDF icons mark previewable files; the only other previewable
      files are audio types whose name contains "pdf", and archive and generic files are
      never previewable. */
  lemma PreviewMatchesIcon(mimeType: string)
    ensures var icon := FileIcon(mimeType);
      && (icon.ImageIcon? || icon.VideoIcon? || icon.PdfIcon? ==> CanPreview(mimeType))
      && (CanPreview(mimeType) && !(icon.ImageIcon? || icon.VideoIcon? || icon.PdfIcon?) ==>
            icon.AudioIcon? && Contains(mimeType, "pdf"))
      && (icon.ArchiveIcon? || icon.GenericIcon? ==> !CanPreview(mimeType))
  {
  }

  /** `findIndex` of the previewed file among the shown items, -1 when it is not shown. */
  function PreviewIndex(items: seq<Item>, fileId: string): (r: int)
    ensures -1 <= r < |items|
    ensures r == -1 <==> forall i :: 0 <= i < |items| ==> !(items[i].FileEntry? && items[i].file.id == fileId)
    ensures r >= 0 ==>
      && items[r].FileEntry? && items[r].file.id == fileId
      && forall i :: 0 <= i < r ==> !(items[i].FileEntry? && items[i].file.id == fileId)
    decreases |items|
  {
    if items == [] then -1
    else if items[0].FileEntry? && items[0].file.id == fileId then 0
    else
      var r := PreviewIndex(items[1..], fileId);
      assert forall i :: 1 <= i < |items| ==> items[i] == items[1..][i - 1];
      if r == -1 then -1 else r + 1
  }

  // ---------------------------------------------------------------------------
  // Page state

  datatype Crumb = Crumb(id: Option<string>, name: string)

  /** The previewed file with its signed URL. */
  datatype Preview = Preview(file: PageFile, downloadUrl: string)

  /** What the page's sign-download request for a preview yields: a URL; the error
      message of a refusal (if it has one); or nothing, when the request rejects because
      the fetch fails or the response is not JSON. The handler is not awaited, so a
      rejection changes nothing on the page. */
  datatype Signing = Signed(url: string) | Failed(error: Option<string>) | Unanswered

  const RootCrumb := Crumb(None, "ROOT")

  /** The target `navigatePreview` computes; `None` when it moves nowhere. */
  function PreviewTarget(items: seq<Item>, preview: Option<Preview>, direction: int): (t: Option<nat>)
    ensures t.Some? ==> t.value < |items| && items[t.value].FileEntry?
    ensures t.Some? <==>
      && preview.Some?
      && 0 <= PreviewIndex(items, preview.value.file.id) + direction < |items|
      && items[PreviewIndex(items, preview.value.file.id) + direction].FileEntry?
  {
    if preview.None? then None
    else
      var target := PreviewIndex(items, preview.value.file.id) + direction;
      if 0 <= target < |items| && items[target].FileEntry? then Some(target) else None
  }

  /** A step from a shown file lands on the neighbouring file; only the adjacent item is
      ever considered, so a folder there stops the step. */
  lemma PreviewStepsToNeighbour(items: seq<Item>, preview: Option<Preview>, direction: int, i: nat)
    requires preview.Some? && i < |items| && items[i] == FileEntry(preview.value.file)
    requires forall k :: 0 <= k < i ==> !(items[k].FileEntry? && items[k].file.id == preview.value.file.id)
    ensures PreviewTarget(items, preview, direction).Some? <==>
      0 <= i + direction < |items| && items[i + direction].FileEntry?
    ensures PreviewTarget(items, preview, direction).Some? ==> PreviewTarget(items, preview, direction).value == i + direction
  {
    assert PreviewIndex(items, preview.value.file.id) == i;
  }

  /** A previewed file that is no longer shown counts as index -1, so stepping forward
      from it opens the first item when that is a file. */
  lemma HiddenPreviewStepsToFirst(items: seq<Item>, preview: Option<Preview>)
    requires preview.Some?
    requires forall i :: 0 <= i < |items| ==> !(items[i].FileEntry? && items[i].file.id == preview.value.file.id)
    requires |items| > 0 && items[0].FileEntry?
    ensures PreviewTarget(items, preview, 1) == Some(0)
  {
  }

  /** The page's navigation state. */
  class VaultPage {
    var breadcrumbs: seq<Crumb>
    var currentFolderId: Option<string>
    var preview: Option<Preview>
    var message: string

    /** The trail starts at the root crumb. */
    ghost predicate Valid()
      reads this
    {
      |breadcrumbs| >= 1 && breadcrumbs[0] == RootCrumb
    }

    /** The current folder is the last crumb's. This holds after the constructor,
        `OpenFolder` and `NavigateToBreadcrumb`, but it is not an invariant of the
        page: the sidebar's root entry sets the current folder to null and leaves the
        trail as it is (page.tsx:427), which this model does not include. */
    predicate AtTrailEnd()
      reads this
      requires Valid()
    {
      currentFolderId == breadcrumbs[|breadcrumbs| - 1].id
    }

    constructor ()
      ensures Valid() && AtTrailEnd()
      ensures breadcrumbs == [Crumb(None, "ROOT")] && currentFolderId == None
      ensures preview == None && message == ""
    {
      breadcrumbs := [RootCrumb];
      currentFolderId := None;
      preview := None;
      message := "";
    }

    /** `openFolder`: one crumb more, and that folder becomes the current one. */
    method OpenFolder(folderId: string, folderName: string)
      requires Valid()
      modifies this
      ensures Valid() && AtTrailEnd()
      ensures breadcrumbs == old(breadcrumbs) + [Crumb(Some(folderId), folderName)]
      ensures currentFolderId == Some(folderId)
      ensures preview == old(preview) && message == old(message)
    {
      currentFolderId := Some(folderId);
      breadcrumbs := breadcrumbs + [Crumb(Some(folderId), folderName)];
    }

    /** `navigateToBreadcrumb`: the trail is cut after crumb `index`, whose folder becomes
        the current one; index 0 returns to the root. */
    method NavigateToBreadcrumb(index: nat)
      requires Valid() && index < |breadcrumbs|
      modifies this
      ensures Valid() && AtTrailEnd()
      ensures breadcrumbs == old(breadcrumbs[..index + 1])
      ensures currentFolderId == old(breadcrumbs[index].id)
      ensures index == 0 ==> currentFolderId == None && breadcrumbs == [RootCrumb]
      ensures preview == old(preview) && message == old(message)
    {
      var trail := breadcrumbs[..index + 1];
      breadcrumbs := trail;
      currentFolderId := trail[index].id;
    }

    /** `navigatePreview` with the shown items and the outcome of the signing request it
        makes: it moves only to an in-range file item, next to the previewed one. */
    method NavigatePreview(direction: int, items: seq<Item>, signing: Signing)
      requires Valid()
      modifies this
      ensures Valid()
      ensures breadcrumbs == old(breadcrumbs) && currentFolderId == old(currentFolderId)
      ensures var target := PreviewTarget(items, old(preview), direction);
        && (target.None? ==> preview == old(preview) && message == old(message))
        && (target.Some? && signing.Signed? ==>
              preview == Some(Preview(items[target.value].file, signing.url)) && message == old(message))
        && (target.Some? && signing.Failed? ==>
              preview == old(preview) && message == (if signing.error.Some? then signing.error.value else "PREVIEW_FAILED"))
        && (signing.Unanswered? ==> preview == old(preview) && message == old(message))
      ensures preview != old(preview) ==>
        exists i :: 0 <= i < |items| && items[i].FileEntry? && preview == Some(Preview(items[i].file, preview.value.downloadUrl))
    {
      if preview.None? {
        return;
      }
      var currentIndex := PreviewIndex(items, preview.value.file.id);
      var newIndex := currentIndex + direction;
      if 0 <= newIndex < |items| {
        var item := items[newIndex];
        if item.FileEntry? {
          match signing
          case Signed(url) =>
            preview := Some(Preview(item.file, url));
          case Failed(error) =>
            message := if error.Some? then error.value else "PREVIEW_FAILED";
          case Unanswered =>
        }
      }
    }
  }
}
