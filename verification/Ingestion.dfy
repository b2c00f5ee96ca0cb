/**
 * The knowledge administration screen (components/KnowledgeBase.tsx): the
 * manual-entry form and file ingestion. The PDF decoder and the file reader
 * are replaced by their results: a PDF arrives as the item strings of each
 * page, a text file as its text, and a file that could not be read as
 * `Unreadable`.
 */
module Ingestion {
  import opened Types
  import opened Text
  import opened KnowledgeStore

  /**
   * `k` is where `/\.[^/.]+$/` matches `name`: a dot followed by at least
   * one character, up to the end, none of which is a dot or a slash.
   */
  ghost predicate ExtensionAt(name: string, k: nat) {
    k + 1 < |name| && name[k] == '.'
    && forall j :: k < j < |name| ==> name[j] != '.' && name[j] != '/'
  }

  /** The pattern can match at one position at most. */
  lemma ExtensionUnique(name: string, k1: nat, k2: nat)
    requires ExtensionAt(name, k1) && ExtensionAt(name, k2)
    ensures k1 == k2
  {
  }

  /**
   * Scans `name` backwards from index `i`, everything after `i` being
   * neither a dot nor a slash, for the dot where the pattern matches.
   */
  function ExtensionDotFrom(name: string, i: int): (r: Option<nat>)
    requires -1 <= i < |name|
    requires forall j :: i < j < |name| ==> name[j] != '.' && name[j] != '/'
    ensures r.Some? ==> ExtensionAt(name, r.value)
    ensures r.None? ==> forall k: nat :: !ExtensionAt(name, k)
    decreases i + 1
  {
    if i < 0 then None
    else if name[i] == '.' then (if i + 1 < |name| then Some(i as nat) else None)
    else if name[i] == '/' then None
    else ExtensionDotFrom(name, i - 1)
  }

  /** `name.replace(/\.[^/.]+$/, "")`: the title given to an uploaded file. */
  function DeriveTitle(name: string): (r: string)
    ensures r <= name
    ensures forall k: nat :: ExtensionAt(name, k) ==> r == name[..k]
    ensures (forall k: nat :: !ExtensionAt(name, k)) ==> r == name
  {
    match ExtensionDotFrom(name, |name| - 1)
    case Some(k) =>
      assert forall k': nat :: ExtensionAt(name, k') ==> k' == k by {
        forall k': nat | ExtensionAt(name, k') ensures k' == k {
          ExtensionUnique(name, k, k');
        }
      }
      name[..k]
    case None => name
  }

  /** One page of a PDF: its item strings joined by spaces, then a newline. */
  function PageLine(items: seq<string>): (r: string)
    ensures |r| > 0 && r[|r| - 1] == '\n'
    ensures items != [] ==> items[0] <= r
  {
    Join(items, " ") + "\n"
  }

  /**
   * The text extracted from a PDF: the page lines in page order. Every page
   * contributes at least its newline, and the text of a PDF with pages ends
   * with one.
   */
  function PagesText(pages: seq<seq<string>>): (r: string)
    ensures |r| >= |pages|
    ensures pages != [] ==> r[|r| - 1] == '\n'
  {
    if pages == [] then "" else PageLine(pages[0]) + PagesText(pages[1..])
  }

  /** Extracting two runs of pages one after the other concatenates their texts. */
  lemma {:induction false} PagesTextAppend(a: seq<seq<string>>, b: seq<seq<string>>)
    ensures PagesText(a + b) == PagesText(a) + PagesText(b)
  {
    if a == [] {
      assert a + b == b;
    } else {
      assert (a + b)[1..] == a[1..] + b;
      PagesTextAppend(a[1..], b);
    }
  }

  /** Pages whose items are all blank (a scanned PDF has none at all) give blank text. */
  lemma {:induction false} BlankPagesText(pages: seq<seq<string>>)
    requires forall p, j :: 0 <= p < |pages| && 0 <= j < |pages[p]| ==> AllWhitespace(pages[p][j])
    ensures AllWhitespace(PagesText(pages))
  {
    if pages != [] {
      BlankPagesText(pages[1..]);
      JoinAllWhitespace(pages[0], " ");
      var a, b := PageLine(pages[0]), PagesText(pages[1..]);
      assert AllWhitespace(a) by {
        var j := Join(pages[0], " ");
        forall i | 0 <= i < |a| ensures IsWhitespace(a[i]) {
          if i < |j| {
            assert a[i] == j[i];
          }
        }
      }
      forall i | 0 <= i < |a + b| ensures IsWhitespace((a + b)[i]) {
        if i < |a| {
          assert (a + b)[i] == a[i];
        } else {
          assert (a + b)[i] == b[i - |a|];
        }
      }
    }
  }

  /** The page loop of the upload handler, pages numbered from 1. */
  method ExtractPdfText(pages: seq<seq<string>>) returns (text: string)
    ensures text == PagesText(pages)
  {
    text := "";
    var i := 1;
    while i <= |pages|
      invariant 1 <= i <= |pages| + 1
      invariant text == PagesText(pages[..i - 1])
    {
      var page := pages[i - 1];
      var line := PageLine(page);
      PagesTextAppend(pages[..i - 1], [page]);
      assert PagesText([page]) == line by {
        assert [page][1..] == [];
      }
      assert pages[..i] == pages[..i - 1] + [page];
      text := text + line;
      i := i + 1;
    }
    assert pages[..i - 1] == pages;
  }

  /** What the file reader produced. */
  datatype FileBody =
    | PdfPages(pages: seq<seq<string>>)  // a PDF, as each page's item strings
    | PlainText(text: string)            // any other file, read as text
    | Unreadable                         // reading or decoding threw

  datatype UploadedFile = UploadedFile(name: string, body: FileBody)

  /**
   * The text the handler extracts: None exactly when extraction threw; a
   * text file's text unchanged; a PDF's page lines.
   */
  function Extracted(body: FileBody): (r: Option<string>)
    ensures r.None? <==> body.Unreadable?
    ensures body.PlainText? ==> r == Some(body.text)
    ensures body.PdfPages? && body.pages != [] ==> r.Some? && |r.value| > 0 && r.value[|r.value| - 1] == '\n'
  {
    match body
    case PdfPages(pages) => Some(PagesText(pages))
    case PlainText(text) => Some(text)
    case Unreadable => None
  }

  /**
   * The reading step of the upload handler: a PDF goes through the page
   * loop, any other file is read as text, and a failure yields None.
   */
  method ExtractText(body: FileBody) returns (text: Option<string>)
    ensures text == Extracted(body)
  {
    match body {
      case PdfPages(pages) =>
        var pdfText := ExtractPdfText(pages);
        text := Some(pdfText);
      case PlainText(plain) =>
        text := Some(plain);
      case Unreadable =>
        text := None;
    }
  }

  /**
   * The item an upload adds: one titled after the file, holding the
   * extracted text, exactly when extraction succeeded and the text is not
   * blank.
   */
  function UploadedItem(file: UploadedFile, id: string, now: int): (r: Option<KnowledgeItem>)
    ensures r.Some? <==> Extracted(file.body).Some? && !AllWhitespace(Extracted(file.body).value)
    ensures r.Some? ==> r.value.title <= file.name && r.value.content == Extracted(file.body).value
    ensures r.Some? ==> r.value.title == DeriveTitle(file.name)
    ensures r.Some? ==> r.value.id == id && r.value.timestamp == now
  {
    match Extracted(file.body)
    case Some(text) =>
      if !IsBlank(text) then Some(KnowledgeItem(id, DeriveTitle(file.name), text, now)) else None
    case None => None
  }

  /**
   * A file named only by its extension, such as ".txt", yields an item with
   * an empty title.
   */
  lemma ExtensionOnlyNameGivesEmptyTitle(ext: string, text: string, id: string, now: int)
    requires ext != [] && forall j :: 0 <= j < |ext| ==> ext[j] != '.' && ext[j] != '/'
    requires !AllWhitespace(text)
    ensures UploadedItem(UploadedFile("." + ext, PlainText(text)), id, now) == Some(KnowledgeItem(id, "", text, now))
  {
    var name := "." + ext;
    forall j | 0 < j < |name| ensures name[j] != '.' && name[j] != '/' {
      assert name[j] == ext[j - 1];
    }
    assert ExtensionAt(name, 0);
  }

  /** A PDF whose pages carry only blank items adds nothing to the store. */
  lemma BlankPdfAddsNothing(name: string, pages: seq<seq<string>>, id: string, now: int)
    requires forall p, j :: 0 <= p < |pages| && 0 <= j < |pages[p]| ==> AllWhitespace(pages[p][j])
    ensures UploadedItem(UploadedFile(name, PdfPages(pages)), id, now) == None
  {
    BlankPagesText(pages);
  }

  /** The form state of the screen; `store` is the application's knowledge list. */
  class KnowledgeForm {
    var title: string
    var content: string
    var isAdding: bool
    var isProcessing: bool
    const store: Store

    constructor (store: Store)
      ensures this.store == store
      ensures title == "" && content == "" && !isAdding && !isProcessing
    {
      this.store := store;
      title, content := "", "";
      isAdding, isProcessing := false, false;
    }

    /** The "write by hand" card opens the form. */
    method Open()
      modifies this`isAdding
      ensures isAdding
      ensures title == old(title) && content == old(content) && isProcessing == old(isProcessing)
    {
      isAdding := true;
    }

    /** The close button hides the form and keeps what was typed. */
    method Close()
      modifies this`isAdding
      ensures !isAdding
      ensures title == old(title) && content == old(content) && isProcessing == old(isProcessing)
    {
      isAdding := false;
    }

    /**
     * `handleSubmit`: adds the typed material only when both title and
     * content have a non-blank character, then empties and closes the form;
     * otherwise nothing changes.
     */
    method HandleSubmit(id: string, now: int)
      requires id !in Ids(store.items)
      modifies this`title, this`content, this`isAdding, store
      ensures !IsBlank(old(title)) && !IsBlank(old(content)) ==>
        && store.items == [KnowledgeItem(id, old(title), old(content), now)] + old(store.items)
        && title == "" && content == "" && !isAdding
      ensures IsBlank(old(title)) || IsBlank(old(content)) ==>
        && store.items == old(store.items)
        && title == old(title) && content == old(content) && isAdding == old(isAdding)
      ensures isProcessing == old(isProcessing)
    {
      var t, c := title, content;
      var accept := !IsBlank(t) && !IsBlank(c);
      if accept {
        store.Add(t, c, id, now);
        title := "";
        content := "";
        isAdding := false;
      }
    }

    /**
     * `handleFileUpload`: without a file nothing happens; otherwise the
     * store gains `UploadedItem` when there is one and is left alone on blank
     * text or failure, and the processing flag ends cleared.
     */
    method HandleFileUpload(file: Option<UploadedFile>, id: string, now: int)
      requires id !in Ids(store.items)
      modifies this`isProcessing, store
      ensures file.None? ==> store.items == old(store.items) && isProcessing == old(isProcessing)
      ensures file.Some? ==> !isProcessing
      ensures file.Some? && UploadedItem(file.value, id, now).Some? ==>
        store.items == [UploadedItem(file.value, id, now).value] + old(store.items)
      ensures file.Some? && UploadedItem(file.value, id, now).None? ==>
        store.items == old(store.items)
      ensures title == old(title) && content == old(content) && isAdding == old(isAdding)
    {
      if file.None? {
        return;
      }
      var f := file.value;
      isProcessing := true;
      var extractedText := ExtractText(f.body);
      if extractedText.Some? && !IsBlank(extractedText.value) {
        assert UploadedItem(f, id, now) == Some(KnowledgeItem(id, DeriveTitle(f.name), extractedText.value, now));
        store.Add(DeriveTitle(f.name), extractedText.value, id, now);
      } else {
        assert UploadedItem(f, id, now) == None;
      }
      isProcessing := false;
    }
  }
}
