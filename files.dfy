/** The entries of the mock drive: the `FileType` record, the sample tree
    `initialFiles`, and the values the handlers build from entries. */
module Files {
  import opened Decimal

  datatype Option<T> = None | Some(value: T)

  /** The `type` tag of an entry: "file" or "folder". */
  datatype Kind = File | Folder

  /** One row of the drive. As in the source record, `size` and `children` are
      optional independently of the tag: a folder carries its children, a file
      carries none, but the type does not enforce it. */
  datatype Entry = Entry(id: string, name: string, kind: Kind, size: Option<string>, children: Children)

  /** The optional `children` array of an entry. */
  datatype Children = Absent | Present(items: seq<Entry>)

  /** A folder with its children and the placeholder size "--". */
  function FolderEntry(id: string, name: string, children: seq<Entry>): Entry {
    Entry(id, name, Folder, Some("--"), Present(children))
  }

  /** A file with a display size and no children. */
  function FileEntry(id: string, name: string, size: string): Entry {
    Entry(id, name, File, Some(size), Absent)
  }

  /** The sample tree the session starts from. */
  const InitialFiles: seq<Entry> := [
    FolderEntry("1", "Documents", [
      FileEntry("2", "Resume.pdf", "1.2 MB"),
      FileEntry("3", "Cover Letter.docx", "890 KB")
    ]),
    FolderEntry("4", "Photos", [
      FileEntry("5", "Vacation.jpg", "3.5 MB"),
      FileEntry("6", "Family.png", "2.7 MB")
    ]),
    FileEntry("7", "Project.zip", "15.2 MB")
  ]

  /** `entry.children || []`: the children, or nothing when they are absent. */
  function ChildrenOrEmpty(e: Entry): (r: seq<Entry>)
    ensures e.children.Present? ==> r == e.children.items
    ensures e.children.Absent? ==> r == []
  {
    match e.children
    case Present(cs) => cs
    case Absent => []
  }

  /** The name of the n-th entry of a view, as the upload handler writes it. */
  function UploadName(n: nat): string {
    "New File " + DecimalString(n) + ".txt"
  }

  /** Distinct positions give distinct upload names: the digits sit at the
      same offset in both names and read back to the position. */
  lemma UploadNamesDiffer(m: nat, n: nat)
    requires m != n
    ensures UploadName(m) != UploadName(n)
  {
    if UploadName(m) == UploadName(n) {
      var dm, dn := DecimalString(m), DecimalString(n);
      assert |dm| == |dn|;
      assert dm == UploadName(m)[9..9 + |dm|];
      assert dn == UploadName(n)[9..9 + |dn|];
      DecimalInjective(m, n);
    }
  }

  /** The file the upload handler appends as the n-th entry of a view; `id`
      stands for the clock reading the source takes. */
  function Placeholder(n: nat, id: string): (e: Entry)
    ensures e.kind == File && e.children == Absent && e.size == Some("0 KB")
    ensures e.id == id && e.name == UploadName(n)
  {
    Entry(id, UploadName(n), File, Some("0 KB"), Absent)
  }

  /** An entry the upload handler can have produced. */
  predicate IsPlaceholder(e: Entry) {
    e.kind == File && e.children == Absent && e.size == Some("0 KB")
  }

  /** The text of the Type column of a row. */
  function TypeLabel(e: Entry): (r: string)
    ensures r == "Folder" || r == "File"
    ensures r == "Folder" <==> e.kind == Folder
  {
    if e.kind == Folder then "Folder" else "File"
  }

  /** Every id in a list of entries and, depth first, in their subtrees. */
  function AllIds(es: seq<Entry>): seq<string>
    decreases es
  {
    if es == [] then []
    else
      var below := match es[0].children
                   case Present(cs) => AllIds(cs)
                   case Absent => [];
      [es[0].id] + below + AllIds(es[1..])
  }

  predicate NoDuplicates(s: seq<string>) {
    forall i, j :: 0 <= i < j < |s| ==> s[i] != s[j]
  }

  /** A tree whose folders, and only they, carry children. */
  predicate WellTagged(es: seq<Entry>)
    decreases es
  {
    forall k :: 0 <= k < |es| ==>
      (es[k].kind == Folder <==> es[k].children.Present?) &&
      (es[k].children.Present? ==> WellTagged(es[k].children.items))
  }

  /** The ids of the sample tree, depth first: "1" to "7". */
  lemma InitialFilesIds()
    ensures AllIds(InitialFiles) == ["1", "2", "3", "4", "5", "6", "7"]
  {
  }

  /** The sample tree: three top-level entries, seven distinct ids over the
      whole tree, and only folders carry children. */
  lemma InitialFilesShape()
    ensures |InitialFiles| == 3
    ensures NoDuplicates(AllIds(InitialFiles))
    ensures WellTagged(InitialFiles)
  {
    InitialFilesIds();
    assert WellTagged(InitialFiles[0].children.items);
    assert WellTagged(InitialFiles[1].children.items);
  }
}
