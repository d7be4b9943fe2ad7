/** The drive page as the source runs it: one object holding the page's state
    cells, whose click handlers overwrite `currentFolder` and `currentFiles`
    and never `files`. Each handler is proved against its transition in
    module Navigation and keeps the state reachable. */
module Drive {
  import opened Files
  import opened Navigation

  class DriveClone {
    /** The root list; the page never calls its setter. */
    const files: seq<Entry>
    /** The breadcrumb path of folders, root first. */
    var currentFolder: seq<Entry>
    /** The list on screen. */
    var currentFiles: seq<Entry>

    /** The state cells as a value. */
    function Snapshot(): (s: Session)
      reads this
      ensures s.files == files && s.path == currentFolder && s.view == currentFiles
    {
      Session(files, currentFolder, currentFiles)
    }

    /** The object invariant: the root list is the sample tree and the state
        is one the handlers can reach. */
    ghost predicate Valid()
      reads this
    {
      files == InitialFiles && Reachable(Snapshot())
    }

    /** Mounting the page: the root list and the list on screen both start as
        the sample tree, and the path is empty. */
    constructor ()
      ensures Valid()
      ensures Snapshot() == Start()
    {
      files := InitialFiles;
      currentFolder := [];
      currentFiles := InitialFiles;
      StartReachable();
    }

    /** `handleUpload`, with `id` standing for the clock reading. */
    method HandleUpload(id: string)
      requires Valid()
      modifies this
      ensures Valid()
      ensures Snapshot() == Upload(old(Snapshot()), id)
    {
      UploadKeepsReachable(Snapshot(), id);
      var newFile := Placeholder(|currentFiles| + 1, id);
      currentFiles := currentFiles + [newFile];
    }

    /** `navigateToFolder`. The page reaches it only through `HandleClick`,
        with a folder row of the list on screen. */
    method NavigateToFolder(folder: Entry)
      requires Valid() && folder in currentFiles && folder.kind == Folder
      modifies this
      ensures Valid()
      ensures Snapshot() == EnterFolder(old(Snapshot()), folder)
    {
      ClickKeepsReachable(Snapshot(), folder);
      currentFolder := currentFolder + [folder];
      currentFiles := ChildrenOrEmpty(folder);
    }

    /** `navigateToBreadcrumb`, on the indices on which it completes (the
        breadcrumb bar only offers those; see `BreadcrumbsNavigate`). */
    method NavigateToBreadcrumb(index: int)
      requires Valid() && CrumbDefined(|currentFolder|, index)
      modifies this
      ensures Valid()
      ensures Crumb(old(Snapshot()), index) == Ok(Snapshot())
    {
      CrumbOutcome(Snapshot(), index);
      CrumbKeepsReachable(Snapshot(), index);
      if index == -1 {
        currentFolder := [];
        currentFiles := files;
      } else {
        var newCurrentFolder := currentFolder[..SliceEnd(|currentFolder|, index + 1)];
        currentFolder := newCurrentFolder;
        currentFiles := ChildrenOrEmpty(newCurrentFolder[|newCurrentFolder| - 1]);
      }
    }

    /** `handleClick` of the row showing `file`: only a folder row navigates. */
    method HandleClick(file: Entry)
      requires Valid() && file in currentFiles
      modifies this
      ensures Valid()
      ensures Snapshot() == Click(old(Snapshot()), file)
    {
      if file.kind == Folder {
        NavigateToFolder(file);
      }
      ClickKeepsReachable(old(Snapshot()), file);
    }
  }

  /** A session driven through the handlers: the sample walk of entering
      Documents, uploading, and going Home. */
  method DocumentsSession(id: string) returns (shown: seq<Entry>)
    ensures shown == InitialFiles
  {
    var page := new DriveClone();
    page.HandleClick(InitialFiles[0]);
    page.HandleUpload(id);
    page.NavigateToBreadcrumb(-1);
    shown := page.currentFiles;
  }
}
