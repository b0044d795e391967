/** The two pieces of logic in the document list page: deriving a title from
    the chosen file's name, and dropping the deleted document from the list
    once the server confirms the delete. */
module DocumentListPage {
  import opened Optional

  // ------------------------------------------------------ title from filename

  /** The pattern `/\.[^/.]+$/` matches at position `i`: a dot followed by one
      or more characters, up to the end of the name, none of which is a dot or
      a slash. */
  predicate ExtensionAt(name: string, i: int) {
    && 0 <= i < |name| - 1
    && name[i] == '.'
    && forall j :: i < j < |name| ==> name[j] != '.' && name[j] != '/'
  }

  /** The pattern matches at most once: its match is the last dot. */
  lemma ExtensionUnique(name: string, i: int, k: int)
    requires ExtensionAt(name, i) && ExtensionAt(name, k)
    ensures i == k
  {
  }

  /** Looking leftwards from position `k`, with no dot or slash at or after
      `k`, for where the pattern matches. */
  function ScanBack(name: string, k: nat): (r: Option<nat>)
    requires k <= |name|
    requires forall j :: k <= j < |name| ==> name[j] != '.' && name[j] != '/'
    ensures r.Some? ==> ExtensionAt(name, r.value)
    ensures r.None? ==> forall i :: 0 <= i < k ==> !ExtensionAt(name, i)
    decreases k
  {
    if k == 0 then None
    else if name[k - 1] == '.' then (if k < |name| then Some(k - 1) else None)
    else if name[k - 1] == '/' then None
    else ScanBack(name, k - 1)
  }

  /** `name.replace(/\.[^/.]+$/, '')`: the name without its final extension,
      or the name itself when the pattern does not match. */
  function StripExtension(name: string): (title: string)
    ensures forall i :: ExtensionAt(name, i) ==> title == name[..i]
    ensures (forall i :: 0 <= i < |name| ==> !ExtensionAt(name, i)) ==> title == name
  {
    match ScanBack(name, |name|)
    case Some(i) =>
      assert forall k :: ExtensionAt(name, k) ==> k == i by {
        forall k | ExtensionAt(name, k) ensures k == i {
          ExtensionUnique(name, i, k);
        }
      }
      name[..i]
    case None => name
  }

  /** The derived title is always a prefix of the file name, and shorter than
      it exactly when there was an extension to remove. */
  lemma StripExtensionIsPrefix(name: string)
    ensures |StripExtension(name)| <= |name|
    ensures StripExtension(name) == name[..|StripExtension(name)|]
    ensures StripExtension(name) != name <==> exists i :: ExtensionAt(name, i)
  {
  }

  /** Only the last extension is removed. */
  lemma StripTarGz()
    ensures StripExtension("a.tar.gz") == "a.tar"
  {
    assert ExtensionAt("a.tar.gz", 5);
  }

  /** A name that ends in a dot, or has no dot, is kept as it is. */
  lemma StripKeepsBareNames()
    ensures StripExtension("notes.") == "notes."
    ensures StripExtension("README") == "README"
  {
  }

  /** A dot before the last slash is not an extension. */
  lemma StripIgnoresDotBeforeSlash()
    ensures StripExtension("v1.2/notes") == "v1.2/notes"
  {
    var name := "v1.2/notes";
    forall i | 0 <= i < |name| ensures !ExtensionAt(name, i) {
      if name[i] == '.' {
        assert i == 2 && name[4] == '/';
      }
    }
  }

  /** A chosen file (only its name is used here). */
  datatype File = File(name: string)

  /** The upload form's state: the selected file and the title field. */
  datatype Form = Form(file: Option<File>, title: string)

  /** `handleFileChange`: selecting at least one file stores the first and
      fills the title from its name; an empty selection changes nothing. */
  function HandleFileChange(form: Form, files: seq<File>): (r: Form)
    ensures |files| == 0 ==> r == form
    ensures |files| > 0 ==> r.file == Some(files[0]) && r.title == StripExtension(files[0].name)
  {
    if |files| > 0 then Form(Some(files[0]), StripExtension(files[0].name)) else form
  }

  // ----------------------------------------------------------- list removal

  /** A document as the page lists it. */
  datatype Item = Item(id: string, title: string)

  /** `documents.filter((d) => d.id !== id)`. */
  function RemoveById(xs: seq<Item>, id: string): (r: seq<Item>)
    ensures |r| <= |xs|
    ensures forall x :: x in r <==> x in xs && x.id != id
    decreases |xs|
  {
    if |xs| == 0 then []
    else if xs[0].id != id then [xs[0]] + RemoveById(xs[1..], id)
    else RemoveById(xs[1..], id)
  }

  /** Filtering a concatenation filters each part and keeps them in order, so
      the entries that remain keep their original relative order. */
  lemma {:induction false} RemoveByIdAppend(a: seq<Item>, b: seq<Item>, id: string)
    ensures RemoveById(a + b, id) == RemoveById(a, id) + RemoveById(b, id)
    decreases |a|
  {
    if |a| > 0 {
      assert (a + b)[0] == a[0];
      assert (a + b)[1..] == a[1..] + b;
      RemoveByIdAppend(a[1..], b, id);
    } else {
      assert a + b == b;
    }
  }

  /** The entries that stay are exactly those with another id; a list with no
      such entry is unchanged, and removing again changes nothing. */
  lemma {:induction false} RemoveByIdKeepsOthers(xs: seq<Item>, id: string)
    ensures (forall i :: 0 <= i < |xs| ==> xs[i].id != id) ==> RemoveById(xs, id) == xs
    ensures RemoveById(RemoveById(xs, id), id) == RemoveById(xs, id)
    decreases |xs|
  {
    if |xs| > 0 {
      RemoveByIdKeepsOthers(xs[1..], id);
      if xs[0].id != id {
        assert ([xs[0]] + RemoveById(xs[1..], id))[0] == xs[0];
        assert ([xs[0]] + RemoveById(xs[1..], id))[1..] == RemoveById(xs[1..], id);
        if forall i :: 0 <= i < |xs| ==> xs[i].id != id {
          assert forall i :: 0 <= i < |xs[1..]| ==> xs[1..][i].id != id by {
            forall i | 0 <= i < |xs[1..]| ensures xs[1..][i].id != id {
              assert xs[1..][i] == xs[i + 1];
            }
          }
          assert xs == [xs[0]] + xs[1..];
        }
      }
    }
  }

  /** The page state the delete confirmation works on. */
  datatype Page = Page(documents: seq<Item>, deleteModalOpen: bool, selected: Option<Item>, deleting: bool)

  /** `handleConfirmDelete` once the server has answered (`succeeded` says
      whether the delete request resolved). Without a selection nothing
      happens. On success the modal closes, the selection is cleared and every
      entry with the deleted id leaves the list; on failure the list, the modal
      and the selection stay. Either way the page is no longer deleting. */
  function ConfirmDelete(page: Page, succeeded: bool): (r: Page)
    ensures page.selected.None? ==> r == page
    ensures (page.selected.Some? && succeeded) ==>
              && r.documents == RemoveById(page.documents, page.selected.value.id)
              && !r.deleteModalOpen && r.selected.None? && !r.deleting
    ensures (page.selected.Some? && !succeeded) ==> r == page.(deleting := false)
    ensures page.selected.Some? ==> forall x :: x in r.documents ==> x in page.documents
  {
    if page.selected.None? then page
    else if succeeded then
      Page(RemoveById(page.documents, page.selected.value.id), false, None, false)
    else page.(deleting := false)
  }

  /** After a confirmed delete no entry carries the deleted id and every
      entry with another id is still listed. */
  lemma ConfirmedDeleteRemovesExactly(page: Page)
    requires page.selected.Some?
    ensures var r := ConfirmDelete(page, true);
            && (forall x :: x in r.documents ==> x.id != page.selected.value.id)
            && (forall x :: x in page.documents && x.id != page.selected.value.id ==> x in r.documents)
  {
  }

  /** Filtering out an entry listed between `before` and `after` leaves
      `before` and then `after`, each filtered, in their original order. */
  lemma DeletedEntryLeavesNeighboursInOrder(before: seq<Item>, doomed: Item, after: seq<Item>)
    ensures RemoveById(before + [doomed] + after, doomed.id) == RemoveById(before, doomed.id) + RemoveById(after, doomed.id)
  {
    var id := doomed.id;
    RemoveByIdAppend(before + [doomed], after, id);
    RemoveByIdAppend(before, [doomed], id);
    assert RemoveById([doomed], id) == [] by {
      assert [doomed][1..] == [];
    }
    assert RemoveById(before, id) + [] == RemoveById(before, id);
  }
}
