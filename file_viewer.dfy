/** The tab strip of the file viewer: one tab per open file name, an active
    tab id, and the pure helpers the tab header renders with (icon by
    extension, PDF detection, shortened tab names). Tab ids come from the
    clock in the application; here they are fresh positive numbers supplied
    by the caller. */
module FileViewer {
  import opened Wrappers
  import opened JsStrings
  import opened JsArrays
  import FileProcessing

  datatype Tab = Tab(id: nat, file: FileProcessing.File, name: string)

  function HasName(name: string): Tab -> bool
  {
    (t: Tab) => t.file.name == name
  }

  function HasId(id: nat): Tab -> bool
  {
    (t: Tab) => t.id == id
  }

  function LacksId(id: nat): Tab -> bool
  {
    (t: Tab) => t.id != id
  }

  /** Every tab has a positive id and shows its file's name; ids and file
      names are unique across the strip. */
  predicate WellFormed(ts: seq<Tab>)
  {
    (forall i :: 0 <= i < |ts| ==> ts[i].id > 0 && ts[i].name == ts[i].file.name) &&
    (forall i, j :: 0 <= i < j < |ts| ==> ts[i].id != ts[j].id && ts[i].file.name != ts[j].file.name)
  }

  /** `tabs.filter(tab => tab.id !== tabId)` */
  function RemoveTab(ts: seq<Tab>, id: nat): seq<Tab>
  {
    Filter(ts, LacksId(id))
  }

  /** The tab made active when the active tab `id` is closed:
      `newTabs[currentIndex > 0 ? currentIndex - 1 : 0]?.id || null`,
      where `currentIndex` is the closed tab's index in the old strip
      (-1 when it is not there). */
  function ActiveAfterClose(ts: seq<Tab>, id: nat): Option<nat>
  {
    var rest := RemoveTab(ts, id);
    var next := match FindIndex(ts, HasId(id)) case Some(k) => if k > 0 then k - 1 else 0 case None => 0;
    if next < |rest| && rest[next].id != 0 then Some(rest[next].id) else None
  }

  /** Closing a tab removes exactly that tab; the others keep their order. */
  lemma CloseRemovesOnlyThatTab(ts: seq<Tab>, k: nat)
    requires WellFormed(ts) && k < |ts|
    ensures RemoveTab(ts, ts[k].id) == ts[..k] + ts[k + 1..]
  {
    FilterDropsOne(ts, LacksId(ts[k].id), k);
  }

  /** Closing an id no tab has changes nothing. */
  lemma CloseUnknownKeepsAll(ts: seq<Tab>, id: nat)
    requires forall i :: 0 <= i < |ts| ==> ts[i].id != id
    ensures RemoveTab(ts, id) == ts
  {
    FilterKeepsAll(ts, LacksId(id));
  }

  /** Removing a tab keeps the strip well formed. */
  lemma RemovalKeepsWellFormed(ts: seq<Tab>, id: nat)
    requires WellFormed(ts)
    ensures WellFormed(RemoveTab(ts, id))
  {
    match FindIndex(ts, HasId(id))
    case None =>
      CloseUnknownKeepsAll(ts, id);
    case Some(k) =>
      CloseRemovesOnlyThatTab(ts, k);
      var rest := ts[..k] + ts[k + 1..];
      assert forall i :: 0 <= i < |rest| ==> rest[i] == ts[if i < k then i else i + 1];
      forall i, j | 0 <= i < j < |rest|
        ensures rest[i].id != rest[j].id && rest[i].file.name != rest[j].file.name
      {
        assert rest[i] == ts[if i < k then i else i + 1];
        assert rest[j] == ts[if j < k then j else j + 1];
      }
  }

  /** The active-tab rule on closing the active tab: the previous tab, or the
      new first tab when the first was closed, or none when no tab is left. */
  lemma ClosingActivatesPrevious(ts: seq<Tab>, k: nat)
    requires WellFormed(ts) && k < |ts|
    ensures k > 0 ==> ActiveAfterClose(ts, ts[k].id) == Some(ts[k - 1].id)
    ensures k == 0 && |ts| > 1 ==> ActiveAfterClose(ts, ts[k].id) == Some(ts[1].id)
    ensures |ts| == 1 ==> ActiveAfterClose(ts, ts[k].id) == None
  {
    CloseRemovesOnlyThatTab(ts, k);
    var found := FindIndex(ts, HasId(ts[k].id));
    assert HasId(ts[k].id)(ts[k]);
    assert found == Some(k);
  }

  /** Once the tab of a file is closed, no tab of the strip shows that file's name. */
  lemma ClosedFileHasNoTab(ts: seq<Tab>, k: nat)
    requires WellFormed(ts) && k < |ts|
    ensures Find(RemoveTab(ts, ts[k].id), HasName(ts[k].file.name)).None?
  {
  }

  /** The tab strip state of one file viewer. */
  class TabStrip {
    var tabs: seq<Tab>
    var activeTabId: Option<nat>

    ghost predicate Valid()
      reads this
    {
      WellFormed(tabs)
    }

    constructor()
      ensures Valid() && tabs == [] && activeTabId == None
    {
      tabs := [];
      activeTabId := None;
    }

    /** A clock-supplied id the strip does not use yet. */
    predicate IsFreshId(id: nat)
      reads this
    {
      id > 0 && forall i :: 0 <= i < |tabs| ==> tabs[i].id != id
    }

    /** The effect that runs whenever the `file` prop or the strip's tabs
        change: a file whose name has no tab yet gets a new tab at the end,
        which becomes active. */
    method ShowFile(file: Option<FileProcessing.File>, freshId: nat)
      requires Valid() && IsFreshId(freshId)
      modifies this
      ensures Valid()
      ensures file.None? || Find(old(tabs), HasName(file.value.name)).Some? ==>
                tabs == old(tabs) && activeTabId == old(activeTabId)
      ensures file.Some? && Find(old(tabs), HasName(file.value.name)).None? ==>
                tabs == old(tabs) + [Tab(freshId, file.value, file.value.name)] &&
                activeTabId == Some(freshId)
    {
      if file.Some? && Find(tabs, HasName(file.value.name)).None? {
        tabs := tabs + [Tab(freshId, file.value, file.value.name)];
        activeTabId := Some(freshId);
      }
    }

    /** `addNewTab`, once the file picker has returned `selected`. A file whose
        name is open only switches to its tab; a new file gets a tab at the
        end, becomes active and is handed to the parent (`uploaded`). */
    method AddNewTab(selected: Option<FileProcessing.File>, freshId: nat)
      returns (uploaded: Option<FileProcessing.File>)
      requires Valid() && IsFreshId(freshId)
      modifies this
      ensures Valid()
      ensures selected.None? ==> tabs == old(tabs) && activeTabId == old(activeTabId) && uploaded == None
      ensures selected.Some? && FindIndex(old(tabs), HasName(selected.value.name)).Some? ==>
                tabs == old(tabs) && uploaded == None &&
                activeTabId == Some(old(tabs)[FindIndex(old(tabs), HasName(selected.value.name)).value].id)
      ensures selected.Some? && FindIndex(old(tabs), HasName(selected.value.name)).None? ==>
                tabs == old(tabs) + [Tab(freshId, selected.value, selected.value.name)] &&
                activeTabId == Some(freshId) && uploaded == selected
    {
      uploaded := None;
      if selected.Some? {
        var existing := FindIndex(tabs, HasName(selected.value.name));
        if existing.Some? {
          activeTabId := Some(tabs[existing.value].id);
        } else {
          tabs := tabs + [Tab(freshId, selected.value, selected.value.name)];
          activeTabId := Some(freshId);
          uploaded := selected;
        }
      }
    }

    /** `closeTab(tabId)` */
    method CloseTab(tabId: nat)
      requires Valid()
      modifies this
      ensures Valid()
      ensures tabs == RemoveTab(old(tabs), tabId)
      ensures old(activeTabId) == Some(tabId) ==> activeTabId == ActiveAfterClose(old(tabs), tabId)
      ensures old(activeTabId) != Some(tabId) ==> activeTabId == old(activeTabId)
    {
      var newTabs := RemoveTab(tabs, tabId);
      RemovalKeepsWellFormed(tabs, tabId);
      if activeTabId == Some(tabId) {
        activeTabId := ActiveAfterClose(tabs, tabId);
      }
      tabs := newTabs;
    }

    /** `closeTab(tabId)` followed by the re-run of the `file` effect that
        the new tabs trigger. Closing the tab of the file the viewer is
        showing brings that file straight back as a new, active tab at the
        end of the strip. */
    method CloseTabThenShowFile(tabId: nat, file: Option<FileProcessing.File>, freshId: nat)
      requires Valid() && IsFreshId(freshId)
      modifies this
      ensures Valid()
      ensures file.None? ==> tabs == RemoveTab(old(tabs), tabId)
      ensures forall k :: 0 <= k < |old(tabs)| && old(tabs)[k].id == tabId &&
                          file.Some? && file.value.name == old(tabs)[k].file.name ==>
                tabs == old(tabs)[..k] + old(tabs)[k + 1..] + [Tab(freshId, file.value, file.value.name)] &&
                activeTabId == Some(freshId)
    {
      ghost var before := tabs;
      CloseTab(tabId);
      forall i | 0 <= i < |tabs|
        ensures tabs[i].id != freshId
      {
        assert tabs[i] in before;
      }
      ShowFile(file, freshId);
      forall k | 0 <= k < |before| && before[k].id == tabId &&
                 file.Some? && file.value.name == before[k].file.name
        ensures tabs == before[..k] + before[k + 1..] + [Tab(freshId, file.value, file.value.name)]
        ensures activeTabId == Some(freshId)
      {
        ClosedFileHasNoTab(before, k);
        CloseRemovesOnlyThatTab(before, k);
      }
    }

    /** `switchTab(tabId)`: the id becomes active even when no tab has it; the
        parent receives the tab's file only when the tab exists. */
    method SwitchTab(tabId: nat) returns (uploaded: Option<FileProcessing.File>)
      requires Valid()
      modifies this
      ensures Valid() && tabs == old(tabs) && activeTabId == Some(tabId)
      ensures uploaded.Some? <==> exists i :: 0 <= i < |tabs| && tabs[i].id == tabId
      ensures forall i :: 0 <= i < |tabs| && tabs[i].id == tabId ==> uploaded == Some(tabs[i].file)
    {
      activeTabId := Some(tabId);
      var tab := Find(tabs, HasId(tabId));
      uploaded := None;
      if tab.Some? {
        uploaded := Some(tab.value.file);
      }
    }

    /** `activeTab?.file` */
    function CurrentFile(): (file: Option<FileProcessing.File>)
      reads this
      requires Valid()
      ensures file.Some? <==> activeTabId.Some? && exists i :: 0 <= i < |tabs| && tabs[i].id == activeTabId.value
      ensures file.Some? ==> exists i :: 0 <= i < |tabs| && tabs[i].id == activeTabId.value && tabs[i].file == file.value
    {
      if activeTabId.None? then None
      else
        match Find(tabs, HasId(activeTabId.value))
        case None => None
        case Some(tab) => Some(tab.file)
    }
  }

  const DefaultIcon := "📄"

  /** The icon for a lower-cased extension. */
  function ExtensionIcon(ext: string): (icon: string)
    ensures icon == DefaultIcon <==> ext !in {"txt", "js", "json", "csv", "md", "html", "css"}
  {
    match ext
    case "pdf" => "📄"
    case "txt" => "📝"
    case "js" => "📜"
    case "json" => "🔧"
    case "csv" => "📊"
    case "md" => "📓"
    case "html" => "🌐"
    case "css" => "🎨"
    case _ => DefaultIcon
  }

  /** `getFileIcon(fileName)`: the icon is chosen by the same extension the
      file-information record reports. */
  function GetFileIcon(fileName: string): (icon: string)
    ensures icon == ExtensionIcon(FileProcessing.GetFileExtension(fileName))
  {
    ExtensionIcon(ToLower(LastSegment(fileName, '.')))
  }

  /** The icon of `base.ext` is the icon of the lower-cased `ext`, whatever `base` holds. */
  lemma IconOfExtension(base: string, ext: string)
    requires '.' !in ext
    ensures GetFileIcon(base + "." + ext) == ExtensionIcon(ToLower(ext))
  {
    LastSegmentAfter(base, '.', ext);
  }

  /** Letter case in the file name does not change the icon. */
  lemma IconIgnoresCase(fileName: string)
    ensures GetFileIcon(ToLower(fileName)) == GetFileIcon(fileName)
  {
    LastSegmentOfLower(fileName, '.');
    ToLowerIdempotent(LastSegment(fileName, '.'));
  }

  /** `isPdf`: there is a current file and its type is `application/pdf` or its
      lower-cased name ends with `.pdf`. */
  function IsPdf(file: Option<FileProcessing.File>): (pdf: bool)
    ensures pdf ==> file.Some?
    ensures file.Some? && FileProcessing.Route(file.value.mimeType) == FileProcessing.PdfExtractor ==> pdf
    ensures file.Some? && EndsWith(ToLower(file.value.name), ".pdf") ==> pdf
    ensures pdf <==> file.Some? &&
                     (FileProcessing.Route(file.value.mimeType) == FileProcessing.PdfExtractor ||
                      EndsWith(ToLower(file.value.name), ".pdf"))
  {
    file.Some? &&
    (file.value.mimeType == FileProcessing.PdfType ||
     (|file.value.name| > 0 && EndsWith(ToLower(file.value.name), ".pdf")))
  }

  /** Every file the extractor routes as a PDF is shown as one, and so is any
      file named `*.pdf` or `*.PDF`, whatever its type; a file with another
      type and another extension is not, and neither is a plain-text file
      named `*.txt`. */
  lemma PdfDetection(file: FileProcessing.File, base: string)
    ensures FileProcessing.Route(file.mimeType) == FileProcessing.PdfExtractor ==> IsPdf(Some(file))
    ensures IsPdf(Some(file.(name := base + ".pdf")))
    ensures IsPdf(Some(file.(name := base + ".PDF")))
    ensures (FileProcessing.Route(file.mimeType) != FileProcessing.PdfExtractor &&
             !EndsWith(ToLower(file.name), ".pdf")) ==> !IsPdf(Some(file))
    ensures !IsPdf(Some(file.(mimeType := "text/plain", name := base + ".txt")))
    ensures !IsPdf(None)
  {
    var txt := base + ".txt";
    assert ToLower(txt)[|txt| - 4..] == ".txt";
  }

  const TabNameLimit := 15

  /** The label of a tab: names longer than 15 characters are cut to their
      first 15 characters followed by `...`. */
  function TabLabel(name: string): (shown: string)
    ensures |name| <= TabNameLimit ==> shown == name
    ensures |name| > TabNameLimit ==>
              |shown| == TabNameLimit + 3 && StartsWith(name, shown[..TabNameLimit]) && EndsWith(shown, "...")
    ensures |shown| <= TabNameLimit + 3
  {
    if |name| > TabNameLimit then name[..TabNameLimit] + "..." else name
  }
}
