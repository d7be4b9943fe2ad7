# Drive clone: navigation state of the mock file browser

This project models the one piece of logic in the drive-tutorial page
`src/app/page.tsx`: the navigation state of a mock file browser. The page holds
three state cells:

- `files`, the root list, which starts as the sample tree `initialFiles` and is never set again;
- `currentFolder`, the breadcrumb path of folders;
- `currentFiles`, the list on screen.

Three click handlers change the state:

- `handleUpload` appends a placeholder file to the list on screen;
- `navigateToFolder` pushes a folder and shows its children;
- `navigateToBreadcrumb` goes Home or cuts the path back to a breadcrumb.

Every handler builds a fresh list and writes nothing back into the tree. So an
uploaded file lives only in the list on screen and is dropped by the next
navigation, Home and a re-click of the current breadcrumb included.

Modules:

- `Decimal` renders a number in decimal digits, as the template literal in the upload name does, and proves the rendering can be read back.
- `Files` holds the `FileType` record (`Entry`), the sample tree, `children || []`, the upload placeholder and the Type column label.
- `Navigation` holds the state cells as a value (`Session`) and each handler as a transition function. It also defines the invariant the handlers keep (`Reachable`: the path is a walk down from the root, and the screen shows that folder's listing followed by uploads), the breadcrumb bar, and the lemmas.
- `Drive` holds the page as a class (`DriveClone`) with the three state cells and the handlers as methods. Each method is proved against its transition function and keeps the invariant.

A design in which the list on screen aliases the folder's children, so that
uploads persist across navigation, is not what the code does: it spreads,
slices and falls back to `[]`, and never calls `setFiles`. The model follows
the code. Likewise, the path after a breadcrumb is a prefix of the old one but
not always a strict one: re-clicking the last breadcrumb keeps the whole path,
so `CrumbOutcome` states a prefix.

## Model

| member | source | states |
|---|---|---|
| Decimal.DecimalString | src/app/page.tsx:47 | the rendering of `${n}` is non-empty, all decimal digits, and has no leading zero unless n is 0 |
| Decimal.DecimalRoundTrip | src/app/page.tsx:47 | reading the rendered digits back gives the number again |
| Decimal.DecimalInjective | src/app/page.tsx:47 | two numbers with the same rendering are equal |
| Files.UploadNamesDiffer | src/app/page.tsx:47 | uploads at different positions get different names: "New File m.txt" and "New File n.txt" coincide only when m = n |
| Files.ChildrenOrEmpty | src/app/page.tsx:56 | `children \|\| []` is the children when present and the empty list when absent |
| Files.Placeholder | src/app/page.tsx:45-50 | the uploaded entry is a file without children, of size "0 KB", carrying the given id and the upload name |
| Files.TypeLabel | src/app/page.tsx:142 | the Type column reads "Folder" exactly for folders and "File" otherwise |
| Files.InitialFilesIds | src/app/page.tsx:15-37 | the ids of the sample tree, depth first, are "1" to "7" |
| Files.InitialFilesShape | src/app/page.tsx:15-37 | the sample tree has three top-level entries, no id repeats anywhere in it, and only its folders carry children |
| Navigation.Start | src/app/page.tsx:40-42 | the page starts at the root: empty path, with the list on screen equal to the root list, which is the sample tree |
| Navigation.StartReachable | src/app/page.tsx:40-42 | the starting state satisfies the invariant |
| Navigation.Upload | src/app/page.tsx:44-52 | an upload keeps the root list and the path, grows the list on screen by exactly one, keeps the old list as a prefix, and ends with the placeholder numbered old length + 1 |
| Navigation.UploadKeepsReachable | src/app/page.tsx:44-52 | an upload keeps the invariant: the extra entry is a placeholder after the listing |
| Navigation.EnterFolder | src/app/page.tsx:54-57 | entering keeps the root list, extends the path by exactly the folder, and shows the folder's children, or nothing when it has none |
| Navigation.Click | src/app/page.tsx:124-129 | a click on a folder row enters that folder; a click on a file row leaves the whole state unchanged |
| Navigation.ClickKeepsReachable | src/app/page.tsx:124-129 | clicking any row on screen keeps the invariant, because a folder row is never an upload and so lies in the current folder's listing |
| Navigation.CrumbOutcome | src/app/page.tsx:59-68 | the breadcrumb handler completes exactly on index -1 and on a non-empty path with index >= -length; when it completes, it keeps the root list and leaves a prefix of the old path |
| Navigation.CrumbInRange | src/app/page.tsx:59-68 | Home empties the path and shows the root list; index i with 0 <= i < length keeps `path[..i+1]` and shows `path[i]`'s children |
| Navigation.CrumbKeepsReachable | src/app/page.tsx:59-68 | a completed breadcrumb keeps the invariant, and the list on screen is then exactly the listing of the new path |
| Navigation.CrumbIdempotent | src/app/page.tsx:63-67 | choosing Home or the same non-negative breadcrumb twice is the same as choosing it once |
| Navigation.CrumbCountsBack | src/app/page.tsx:64 | an index below -1 that completes keeps `path[..length+index+1]`, counting back from the end as `slice` does with a negative end, so the path gets strictly shorter |
| Navigation.CrumbPastEnd | src/app/page.tsx:64-66 | an index at or past the end of a non-empty path keeps the whole path and shows the last folder's children, since `slice` clamps its end |
| Navigation.UploadMany | src/app/page.tsx:44-52 | a run of uploads keeps the root list and the path and adds one entry per upload |
| Navigation.UploadManyShape | src/app/page.tsx:44-52 | a run of uploads keeps the old list as a prefix and appends the placeholders numbered on from the old length, in order |
| Navigation.UploadedName | src/app/page.tsx:47 | the k-th file of a run of uploads is named after its position, old length + k + 1 |
| Navigation.UploadedNamesDistinct | src/app/page.tsx:47 | the files a run of uploads adds have pairwise distinct names |
| Navigation.UploadsDiscardedByCrumb | src/app/page.tsx:59-68 | any breadcrumb after a run of uploads has the same outcome as without them: the uploads are not persisted |
| Navigation.UploadsLostOnReselect | src/app/page.tsx:64-66 | entering a folder, uploading, then choosing that folder's own breadcrumb gives back exactly the state right after entering |
| Navigation.UploadsLostAtHome | src/app/page.tsx:59-62 | after any uploads, root ones included, Home shows the unchanged root list with an empty path |
| Navigation.BreadcrumbsNavigate | src/app/page.tsx:92-102 | the bar has one control more than the path has folders: Home leads to the root, and the control labelled with the j-th folder leads to the path ending with that folder, so every index the bar produces completes |
| Navigation.DocumentsScenario | src/app/page.tsx:15-68 | from the start, entering Documents shows Resume.pdf and Cover Letter.docx; an upload adds "New File 3.txt" of size "0 KB"; Home then restores the three-entry root |
| Navigation.EnterTwiceThenFirstCrumb | src/app/page.tsx:54-67 | entering A then B from the root and choosing the first breadcrumb leaves path [A] showing A's children |
| Drive.DriveClone.constructor | src/app/page.tsx:40-42 | mounting gives the starting state, which satisfies the invariant |
| Drive.DriveClone.HandleUpload | src/app/page.tsx:44-52 | the handler's new state is `Upload` of the old one, and the invariant is kept |
| Drive.DriveClone.NavigateToFolder | src/app/page.tsx:54-57 | the handler's new state is `EnterFolder` of the old one, and the invariant is kept |
| Drive.DriveClone.NavigateToBreadcrumb | src/app/page.tsx:59-68 | on every index the handler completes on, its new state is the outcome of `Crumb`, and the invariant is kept |
| Drive.DriveClone.HandleClick | src/app/page.tsx:124-129 | clicking a row on screen gives `Click` of the old state: only folders navigate; the invariant is kept |
| Drive.DocumentsSession | src/app/page.tsx:44-68 | driving the page through entering Documents, uploading, and Home ends showing the sample root list |

## Left out

- Rendering and styling of `GoogleDriveClone`, `Breadcrumbs`, `FileList` and `FileItem` are left out, except the breadcrumb index mapping and the folder-only click guard. They are presentation only.
- The `Button` widget and the `lucide-react` icons are left out. They are foreign UI components.
- `src/app/layout.tsx` is not part of this model. It holds the HTML shell, the CSS import and the font loading.
- `Date.now().toString()` is left out. The new file's id is an arbitrary `id` parameter, so two uploads in the same millisecond could share an id (and a React key); the model does not assume ids are unique.
- React's update scheduling and batching are left out. Each handler is one atomic step.
- The size strings ("1.2 MB", "--") are opaque literals.
- Drive.DriveClone.NavigateToBreadcrumb: requires an index on which the source handler completes (`CrumbDefined`). On any other index the source throws while reading `children` of `undefined`; that outcome is modelled only by `Navigation.Crumb` returning `Err`, not as a state change of the object.
- Drive.DriveClone.NavigateToFolder: requires a folder row of the list on screen, which is how `FileItem` calls it. The source handler accepts any entry; that general case is modelled by `Navigation.EnterFolder`, which does not require it.
- Decimal.DecimalString: renders every natural number in plain digits. JavaScript switches to exponent notation from 10^21, far beyond any list length.
- Fractional and non-numeric breadcrumb indices are left out. Indices are integers.
