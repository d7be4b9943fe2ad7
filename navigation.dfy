/** The navigation state of the drive page as values: the three state cells
    and what each click handler computes from them. Every handler builds new
    lists; nothing is written back into the root list or into a folder's
    children, so entries added by an upload live only in the list on screen. */
module Navigation {
  import opened Decimal
  import opened Files

  /** The page's state cells: the root list `files`, the breadcrumb path
      `currentFolder`, and the list on screen `currentFiles`. */
  datatype Session = Session(files: seq<Entry>, path: seq<Entry>, view: seq<Entry>)

  /** The run-time failure of the breadcrumb handler: reading `children` of the
      last element of an empty path. */
  datatype Error = ChildrenOfUndefined

  datatype Result<T> = Ok(value: T) | Err(error: Error)

  /** The state when the page mounts: at the root, showing the sample tree. */
  function Start(): (s: Session)
    ensures s.files == InitialFiles && s.path == [] && s.view == s.files
  {
    Session(InitialFiles, [], InitialFiles)
  }

  /** The list the page shows for `path` when nothing has been uploaded: the
      root list, or the children of the last folder on the path. */
  function Listing(files: seq<Entry>, path: seq<Entry>): seq<Entry> {
    if path == [] then files else ChildrenOrEmpty(path[|path| - 1])
  }

  // ---------------------------------------------------------------------------
  // The handlers

  /** `handleUpload`: append a placeholder file, numbered after the entries
      already on screen, to the list on screen. */
  function Upload(s: Session, id: string): (r: Session)
    ensures r.files == s.files && r.path == s.path
    ensures |r.view| == |s.view| + 1 && r.view[..|s.view|] == s.view
    ensures r.view[|s.view|] == Placeholder(|s.view| + 1, id)
  {
    s.(view := s.view + [Placeholder(|s.view| + 1, id)])
  }

  /** `navigateToFolder`: push the entry onto the path and show its children.
      The handler itself accepts any entry; a file has no children. */
  function EnterFolder(s: Session, folder: Entry): (r: Session)
    ensures r.files == s.files
    ensures |r.path| == |s.path| + 1 && r.path[..|s.path|] == s.path && r.path[|s.path|] == folder
    ensures folder.children.Present? ==> r.view == folder.children.items
    ensures folder.children.Absent? ==> r.view == []
  {
    Session(s.files, s.path + [folder], ChildrenOrEmpty(folder))
  }

  /** `handleClick` of a row: only a folder row calls the folder handler; a
      click on a file changes nothing. */
  function Click(s: Session, e: Entry): (r: Session)
    ensures e.kind == Folder ==> r == EnterFolder(s, e)
    ensures e.kind == File ==> r == s
  {
    if e.kind == Folder then EnterFolder(s, e) else s
  }

  /** The end position `Array.prototype.slice(0, end)` stops at on a list of
      length `len`: a negative end counts back from the end of the list. */
  function SliceEnd(len: nat, end: int): (k: nat)
    ensures k <= len
  {
    if end < 0 then (if len + end < 0 then 0 else len + end)
    else if end <= len then end
    else len
  }

  /** `navigateToBreadcrumb`: index -1 goes back to the root list; any other
      index keeps the path up to and including that position and shows the
      children of the folder now last. When that leaves the path empty, the
      source reads `children` of `undefined` and fails. */
  function Crumb(s: Session, index: int): Result<Session> {
    if index == -1 then Ok(Session(s.files, [], s.files))
    else
      var path := s.path[..SliceEnd(|s.path|, index + 1)];
      if path == [] then Err(ChildrenOfUndefined)
      else Ok(Session(s.files, path, ChildrenOrEmpty(path[|path| - 1])))
  }

  /** The indices on which the breadcrumb handler runs to completion. */
  predicate CrumbDefined(pathLength: nat, index: int) {
    index == -1 || (pathLength != 0 && index + pathLength >= 0)
  }

  /** Uploads in a row, one per clock reading in `ids`. */
  function UploadMany(s: Session, ids: seq<string>): (r: Session)
    ensures r.files == s.files && r.path == s.path
    ensures |r.view| == |s.view| + |ids|
    decreases |ids|
  {
    if ids == [] then s else UploadMany(Upload(s, ids[0]), ids[1..])
  }

  // ---------------------------------------------------------------------------
  // The invariant the handlers keep

  /** Each folder on the path was shown, and so could be clicked, when the
      path stopped just before it: the path is a walk down from the root. */
  predicate IsWalk(files: seq<Entry>, path: seq<Entry>) {
    forall j :: 0 <= j < |path| ==> WalkStep(files, path, j)
  }

  /** The j-th folder of the path is a folder listed one level up. */
  predicate WalkStep(files: seq<Entry>, path: seq<Entry>, j: nat)
    requires j < |path|
  {
    path[j].kind == Folder && path[j] in (if j == 0 then files else ChildrenOrEmpty(path[j - 1]))
  }

  /** A state the page can reach: the path is a walk from the root, and the
      list on screen is the listing of that path followed by uploaded files. */
  predicate Reachable(s: Session) {
    var listing := Listing(s.files, s.path);
    IsWalk(s.files, s.path) &&
    |listing| <= |s.view| && s.view[..|listing|] == listing &&
    forall k :: |listing| <= k < |s.view| ==> IsPlaceholder(s.view[k])
  }

  lemma StartReachable()
    ensures Reachable(Start())
  {
  }

  lemma UploadKeepsReachable(s: Session, id: string)
    requires Reachable(s)
    ensures Reachable(Upload(s, id))
  {
  }

  /** Clicking any row on screen keeps the state reachable: a folder row is
      never an uploaded entry, so it belongs to the listing of the path. */
  lemma ClickKeepsReachable(s: Session, e: Entry)
    requires Reachable(s) && e in s.view
    ensures Reachable(Click(s, e))
  {
    if e.kind == Folder {
      var listing := Listing(s.files, s.path);
      var k :| 0 <= k < |s.view| && s.view[k] == e;
      assert k < |listing|;
      assert listing[k] == e;
      var r := EnterFolder(s, e);
      forall j | 0 <= j < |r.path|
        ensures WalkStep(r.files, r.path, j)
      {
        if j < |s.path| {
          assert WalkStep(s.files, s.path, j);
          assert r.path[j] == s.path[j];
          if j > 0 { assert r.path[j - 1] == s.path[j - 1]; }
        } else if j > 0 {
          assert r.path[j - 1] == s.path[|s.path| - 1];
        }
      }
      assert Listing(r.files, r.path) == r.view;
    }
  }

  /** A breadcrumb that completes leads to a reachable state whose list on
      screen is exactly the listing of the new path: uploads are gone. */
  lemma CrumbKeepsReachable(s: Session, index: int)
    requires Reachable(s) && Crumb(s, index).Ok?
    ensures Reachable(Crumb(s, index).value)
    ensures Crumb(s, index).value.view == Listing(s.files, Crumb(s, index).value.path)
  {
    var r := Crumb(s, index).value;
    forall j | 0 <= j < |r.path|
      ensures WalkStep(r.files, r.path, j)
    {
      assert WalkStep(s.files, s.path, j);
      assert r.path[j] == s.path[j];
      if j > 0 { assert r.path[j - 1] == s.path[j - 1]; }
    }
  }

  // ---------------------------------------------------------------------------
  // The breadcrumb handler

  /** The handler completes exactly on the indices `CrumbDefined` admits, never
      touches the root list, and leaves a prefix of the old path. */
  lemma CrumbOutcome(s: Session, index: int)
    ensures Crumb(s, index).Ok? <==> CrumbDefined(|s.path|, index)
    ensures Crumb(s, index).Ok? ==> Crumb(s, index).value.files == s.files
    ensures Crumb(s, index).Ok? ==> Crumb(s, index).value.path <= s.path
  {
  }

  /** For the indices the breadcrumb bar offers, -1 shows the root list and
      0 <= i < |path| keeps the first i+1 folders and shows the children of
      the i-th. */
  lemma CrumbInRange(s: Session, index: int)
    requires -1 <= index < |s.path|
    ensures Crumb(s, index).Ok?
    ensures index == -1 ==> Crumb(s, index).value == Session(s.files, [], s.files)
    ensures 0 <= index ==>
      Crumb(s, index).value == Session(s.files, s.path[..index + 1], ChildrenOrEmpty(s.path[index]))
  {
  }

  /** Choosing the same non-negative breadcrumb (or Home) twice is the same as
      choosing it once (an index below -1 is not: see `CrumbCountsBack`). */
  lemma CrumbIdempotent(s: Session, index: int)
    requires index >= -1 && Crumb(s, index).Ok?
    ensures Crumb(Crumb(s, index).value, index) == Crumb(s, index)
  {
    if index >= 0 {
      var t := Crumb(s, index).value;
      assert SliceEnd(|t.path|, index + 1) == |t.path|;
      assert t.path[..|t.path|] == t.path;
    }
  }

  /** An index below -1 counts back from the end of the path, as `slice`
      does with a negative end: it drops the last -(index+1) folders. The
      path gets strictly shorter, so choosing the same index again shortens
      it again, until the handler fails on an empty path. */
  lemma CrumbCountsBack(s: Session, index: int)
    requires index < -1 && CrumbDefined(|s.path|, index)
    ensures Crumb(s, index).Ok?
    ensures Crumb(s, index).value.path == s.path[..|s.path| + index + 1]
    ensures |Crumb(s, index).value.path| < |s.path|
  {
  }

  /** An index at or past the end of a non-empty path keeps the whole path,
      as `slice` clamps its end to the length, and shows the children of the
      last folder. */
  lemma CrumbPastEnd(s: Session, index: int)
    requires 0 < |s.path| <= index
    ensures Crumb(s, index) == Ok(Session(s.files, s.path, ChildrenOrEmpty(s.path[|s.path| - 1])))
  {
    assert s.path[..|s.path|] == s.path;
  }

  // ---------------------------------------------------------------------------
  // Uploads are not persisted

  /** A run of uploads keeps the root list and the path, and appends one
      placeholder per upload, numbered on from the entries already shown. */
  lemma {:induction false} UploadManyShape(s: Session, ids: seq<string>)
    ensures UploadMany(s, ids).files == s.files && UploadMany(s, ids).path == s.path
    ensures |UploadMany(s, ids).view| == |s.view| + |ids|
    ensures UploadMany(s, ids).view[..|s.view|] == s.view
    ensures forall k :: 0 <= k < |ids| ==>
      UploadMany(s, ids).view[|s.view| + k] == Placeholder(|s.view| + k + 1, ids[k])
    decreases |ids|
  {
    if ids != [] {
      var t := Upload(s, ids[0]);
      UploadManyShape(t, ids[1..]);
      var r := UploadMany(s, ids);
      assert r == UploadMany(t, ids[1..]);
      assert r.view[..|s.view|] == r.view[..|t.view|][..|s.view|];
      forall k | 0 <= k < |ids|
        ensures r.view[|s.view| + k] == Placeholder(|s.view| + k + 1, ids[k])
      {
        if k == 0 {
          assert r.view[|s.view|] == r.view[..|t.view|][|s.view|];
        } else {
          assert r.view[|s.view| + k] == r.view[|t.view| + (k - 1)];
        }
      }
    }
  }

  /** The k-th file a run of uploads adds is named after its position. */
  lemma UploadedName(s: Session, ids: seq<string>, k: nat)
    requires k < |ids|
    ensures UploadMany(s, ids).view[|s.view| + k].name == UploadName(|s.view| + k + 1)
  {
    UploadManyShape(s, ids);
    var e := UploadMany(s, ids).view[|s.view| + k];
    assert e == Placeholder(|s.view| + k + 1, ids[k]);
  }

  /** The files a run of uploads adds carry pairwise distinct names. */
  lemma UploadedNamesDistinct(s: Session, ids: seq<string>, j: nat, k: nat)
    requires j < k < |ids|
    ensures UploadMany(s, ids).view[|s.view| + j].name != UploadMany(s, ids).view[|s.view| + k].name
  {
    var m, n := |s.view| + j + 1, |s.view| + k + 1;
    UploadedName(s, ids, j);
    UploadedName(s, ids, k);
    UploadNamesDiffer(m, n);
  }

  /** Any breadcrumb chosen after a run of uploads leads where it would have
      led without them: the uploaded files are dropped. */
  lemma UploadsDiscardedByCrumb(s: Session, ids: seq<string>, index: int)
    ensures Crumb(UploadMany(s, ids), index) == Crumb(s, index)
  {
  }

  /** Entering a folder, uploading, then choosing that folder's own breadcrumb
      returns the state just after entering: the uploads are lost. */
  lemma UploadsLostOnReselect(s: Session, folder: Entry, ids: seq<string>)
    ensures Crumb(UploadMany(EnterFolder(s, folder), ids), |s.path|) == Ok(EnterFolder(s, folder))
  {
    var t := EnterFolder(s, folder);
    UploadsDiscardedByCrumb(t, ids, |s.path|);
    assert t.path[..|s.path| + 1] == t.path;
  }

  /** Uploads made anywhere, the root included, are gone after Home. */
  lemma UploadsLostAtHome(s: Session, ids: seq<string>)
    ensures Crumb(UploadMany(s, ids), -1) == Ok(Session(s.files, [], s.files))
  {
  }

  // ---------------------------------------------------------------------------
  // The breadcrumb bar

  /** One control of the breadcrumb bar: its text and the index it passes
      to the breadcrumb handler. */
  datatype CrumbControl = CrumbControl(text: string, target: int)

  /** The bar: Home, then one control per folder on the path, in path order. */
  function Breadcrumbs(path: seq<Entry>): seq<CrumbControl> {
    [CrumbControl("Home", -1)] + seq(|path|, j requires 0 <= j < |path| => CrumbControl(path[j].name, j))
  }

  /** The bar has one more control than the path has folders; the first is
      Home and leads to the root, and the one labelled with the j-th folder's
      name leads to the path ending with that folder. So every index the bar
      produces is one the handler completes on. */
  lemma BreadcrumbsNavigate(s: Session, c: nat)
    requires c < |Breadcrumbs(s.path)|
    ensures |Breadcrumbs(s.path)| == |s.path| + 1
    ensures Crumb(s, Breadcrumbs(s.path)[c].target).Ok?
    ensures c == 0 ==>
      Breadcrumbs(s.path)[c].text == "Home" && Crumb(s, Breadcrumbs(s.path)[c].target).value.path == []
    ensures c > 0 ==> var r := Crumb(s, Breadcrumbs(s.path)[c].target).value;
      |r.path| == c && r.path == s.path[..c] && Breadcrumbs(s.path)[c].text == r.path[c - 1].name
  {
  }

  // ---------------------------------------------------------------------------
  // Sample sessions

  /** Enter Documents, upload once, go Home: the upload shows as
      "New File 3.txt" inside Documents and is gone from the root list. */
  lemma DocumentsScenario(id: string)
    ensures var inDocs := Click(Start(), InitialFiles[0]);
      inDocs.path == [InitialFiles[0]] &&
      inDocs.view == [FileEntry("2", "Resume.pdf", "1.2 MB"), FileEntry("3", "Cover Letter.docx", "890 KB")] &&
      Upload(inDocs, id).view == inDocs.view + [Entry(id, "New File 3.txt", File, Some("0 KB"), Absent)] &&
      Crumb(Upload(inDocs, id), -1) == Ok(Start()) &&
      |Start().view| == 3
  {
    assert DecimalString(3) == "3";
    assert UploadName(3) == "New File 3.txt";
  }

  /** Enter a folder and one of its subfolders, then choose the first
      breadcrumb: back in the first folder, showing its children. */
  lemma EnterTwiceThenFirstCrumb(s: Session, a: Entry, b: Entry)
    requires s.path == []
    ensures Crumb(EnterFolder(EnterFolder(s, a), b), 0) == Ok(Session(s.files, [a], ChildrenOrEmpty(a)))
  {
  }
}
