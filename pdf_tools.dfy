/** The pdf-tools service: merging PDFs, splitting one into single pages,
    and turning JPG or PNG images into a PDF of one page per image. A
    document is its sequence of pages; parsing an upload (`PDFDocument.load`,
    `embedJpg`, `embedPng`) is a parameter that may fail, and so is the
    store of the merged file in the bucket. */
module PdfTools {
  import opened Common
  import opened Text
  import opened Ordering

  type Bytes = seq<bv8>

  /** A page, as far as composition is concerned: its size. */
  datatype Page = Page(width: int, height: int)

  /** A file of a multipart upload. */
  datatype Upload = Upload(mimetype: string, buffer: Bytes)

  datatype ZipEntry = ZipEntry(name: string, pages: seq<Page>)

  datatype Attachment = Pdf(pages: seq<Page>) | Zip(entries: seq<ZipEntry>)

  /** What the client gets: nothing at all (the handler threw before
      answering), a JSON error, or a file. */
  datatype PdfReply =
    | Unhandled
    | JsonError(status: int, error: string)
    | FileSent(contentType: string, disposition: string, body: Attachment)

  /** The object put into the bucket. */
  datatype StoredObject = StoredObject(key: string, contentType: string, pages: seq<Page>)

  const MergeTooFew := "Por favor, envie pelo menos dois arquivos para mesclar."
  const MergeFailed := "Falha ao processar os arquivos PDF."
  const SplitMissing := "Por favor, envie um arquivo PDF."
  const SplitFailed := "Falha ao separar o arquivo PDF."
  const ConvertFailed := "Falha ao converter as imagens para PDF."
  const PdfType := "application/pdf"
  const ZipType := "application/zip"
  const SplitDisposition := "attachment; filename=paginas_separadas.zip"

  // ---- Merge ----

  /** The pages of several documents, one after the other. */
  function Concat(docs: seq<seq<Page>>): (r: seq<Page>)
    ensures docs == [] ==> r == []
  {
    if docs == [] then [] else docs[0] + Concat(docs[1..])
  }

  /** Concatenating two runs of documents concatenates their pages. */
  lemma {:induction false} ConcatAppend(a: seq<seq<Page>>, b: seq<seq<Page>>)
    ensures Concat(a + b) == Concat(a) + Concat(b)
    decreases |a|
  {
    if a != [] {
      assert (a + b)[0] == a[0] && (a + b)[1..] == a[1..] + b;
      ConcatAppend(a[1..], b);
      calc {
        Concat(a + b);
        a[0] + Concat(a[1..] + b);
        a[0] + (Concat(a[1..]) + Concat(b));
        (a[0] + Concat(a[1..])) + Concat(b);
        Concat(a) + Concat(b);
      }
    } else {
      assert a + b == b;
    }
  }

  /** The merged document holds every page of every upload: page `j` of
      document `k` comes right after the pages of the documents before it. */
  lemma {:induction false} ConcatPlaces(docs: seq<seq<Page>>, k: nat, j: nat)
    requires k < |docs| && j < |docs[k]|
    ensures |Concat(docs[..k])| + j < |Concat(docs)|
    ensures Concat(docs)[|Concat(docs[..k])| + j] == docs[k][j]
  {
    assert docs == docs[..k] + [docs[k]] + docs[k + 1..];
    ConcatAppend(docs[..k] + [docs[k]], docs[k + 1..]);
    ConcatAppend(docs[..k], [docs[k]]);
    assert Concat([docs[k]]) == docs[k] + Concat([]);
  }

  /** Every upload parses. */
  predicate AllLoad(files: seq<Upload>, load: Bytes -> Option<seq<Page>>) {
    forall k :: 0 <= k < |files| ==> load(files[k].buffer).Some?
  }

  /** The parsed documents, in upload order. */
  function Loaded(files: seq<Upload>, load: Bytes -> Option<seq<Page>>): (docs: seq<seq<Page>>)
    requires AllLoad(files, load)
    ensures |docs| == |files|
  {
    seq(|files|, k requires 0 <= k < |files| => load(files[k].buffer).value)
  }

  function MergedName(uuid: string): string {
    "merged-" + uuid + ".pdf"
  }

  function Attached(name: string): string {
    "attachment; filename=" + name
  }

  /** `POST /merge`. `files` is None when the request is not multipart at
      all, so that multer leaves `req.files` unset and reading its `length`
      throws before any answer; a multipart request with no file gets
      `Some([])`.
      `putOk` says whether the bucket accepted the object. */
  method Merge(files: Option<seq<Upload>>, load: Bytes -> Option<seq<Page>>, uuid: string, putOk: bool)
    returns (r: PdfReply, stored: Option<StoredObject>)
    ensures files.None? ==> r == Unhandled && stored.None?
    ensures files.Some? && |files.value| < 2 ==> r == JsonError(400, MergeTooFew) && stored.None?
    ensures files.Some? && |files.value| >= 2 && !AllLoad(files.value, load) ==>
              r == JsonError(500, MergeFailed) && stored.None?
    ensures files.Some? && |files.value| >= 2 && AllLoad(files.value, load) ==>
              var pages := Concat(Loaded(files.value, load));
              && (putOk ==> stored == Some(StoredObject(MergedName(uuid), PdfType, pages))
                            && r == FileSent(PdfType, Attached(MergedName(uuid)), Pdf(pages)))
              && (!putOk ==> stored.None? && r == JsonError(500, MergeFailed))
  {
    if files.None? {
      return Unhandled, None;
    }
    var fs := files.value;
    if |fs| < 2 {
      return JsonError(400, MergeTooFew), None;
    }
    var pages: seq<Page> := [];
    var i := 0;
    while i < |fs|
      invariant 0 <= i <= |fs|
      invariant AllLoad(fs[..i], load)
      invariant pages == Concat(Loaded(fs[..i], load))
    {
      var doc := load(fs[i].buffer);
      if doc.None? {
        assert !AllLoad(fs, load) by { assert !load(fs[i].buffer).Some?; }
        return JsonError(500, MergeFailed), None;
      }
      assert fs[..i + 1] == fs[..i] + [fs[i]];
      assert Loaded(fs[..i + 1], load) == Loaded(fs[..i], load) + [doc.value];
      ConcatAppend(Loaded(fs[..i], load), [doc.value]);
      assert Concat([doc.value]) == doc.value + Concat([]);
      pages := pages + doc.value;
      i := i + 1;
    }
    assert fs[..i] == fs;
    var name := MergedName(uuid);
    if !putOk {
      return JsonError(500, MergeFailed), None;
    }
    stored := Some(StoredObject(name, PdfType, pages));
    r := FileSent(PdfType, Attached(name), Pdf(pages));
  }

  // ---- Split ----

  /** `pagina-${i + 1}.pdf`. */
  function PageName(i: nat): string {
    "pagina-" + NatToString(i + 1) + ".pdf"
  }

  /** The archive entries for a document: entry `i` holds page `i` alone. */
  function SplitEntries(pages: seq<Page>): (entries: seq<ZipEntry>)
    ensures |entries| == |pages|
  {
    seq(|pages|, i requires 0 <= i < |pages| => ZipEntry(PageName(i), [pages[i]]))
  }

  /** No two entries of an archive share a name. */
  lemma PageNamesDistinct(i: nat, j: nat)
    requires i != j
    ensures PageName(i) != PageName(j)
  {
    if PageName(i) == PageName(j) {
      var a, b := NatToString(i + 1), NatToString(j + 1);
      assert |a| == |b|;
      assert a == PageName(i)[7..7 + |a|];
      assert b == PageName(j)[7..7 + |b|];
      NatToStringInjective(i + 1, j + 1);
    }
  }

  function EntryPages(entries: seq<ZipEntry>): seq<seq<Page>> {
    seq(|entries|, k requires 0 <= k < |entries| => entries[k].pages)
  }

  /** Merging the split pages back gives the original document. */
  lemma {:induction false} SplitThenMerge(pages: seq<Page>)
    ensures Concat(EntryPages(SplitEntries(pages))) == pages
    decreases |pages|
  {
    if pages != [] {
      var docs := EntryPages(SplitEntries(pages));
      var rest := EntryPages(SplitEntries(pages[1..]));
      assert docs[0] == [pages[0]];
      assert docs[1..] == rest;
      SplitThenMerge(pages[1..]);
      assert pages == [pages[0]] + pages[1..];
    }
  }

  /** `POST /split`. `file` is None when no file was uploaded. */
  method Split(file: Option<Upload>, load: Bytes -> Option<seq<Page>>) returns (r: PdfReply)
    ensures file.None? ==> r == JsonError(400, SplitMissing)
    ensures file.Some? && load(file.value.buffer).None? ==> r == JsonError(500, SplitFailed)
    ensures file.Some? && load(file.value.buffer).Some? ==>
              r == FileSent(ZipType, SplitDisposition, Zip(SplitEntries(load(file.value.buffer).value)))
  {
    if file.None? {
      return JsonError(400, SplitMissing);
    }
    var doc := load(file.value.buffer);
    if doc.None? {
      return JsonError(500, SplitFailed);
    }
    var pages := doc.value;
    var entries: seq<ZipEntry> := [];
    for i := 0 to |pages|
      invariant |entries| == i
      invariant forall k :: 0 <= k < i ==> entries[k] == ZipEntry(PageName(k), [pages[k]])
    {
      entries := entries + [ZipEntry(PageName(i), [pages[i]])];
    }
    assert entries == SplitEntries(pages);
    r := FileSent(ZipType, SplitDisposition, Zip(entries));
  }

  // ---- Images to PDF ----

  /** The two image formats: the accepted mimetype, the empty-list message
      and the name of the PDF sent back. */
  datatype ImageKind = Jpg | Png

  function AcceptedType(kind: ImageKind): string {
    match kind
    case Jpg => "image/jpeg"
    case Png => "image/png"
  }

  function NoImagesMessage(kind: ImageKind): string {
    match kind
    case Jpg => "Por favor, envie pelo menos um arquivo JPG."
    case Png => "Por favor, envie pelo menos um arquivo PNG."
  }

  function ConvertedName(kind: ImageKind): string {
    match kind
    case Jpg => "convertido-jpg.pdf"
    case Png => "convertido-png.pdf"
  }

  function OfType(mime: string): Upload -> bool {
    (u: Upload) => u.mimetype == mime
  }

  /** The files the loop does not skip. */
  function Kept(files: seq<Upload>, kind: ImageKind): seq<Upload> {
    Where(files, OfType(AcceptedType(kind)))
  }

  /** Every kept image embeds (`embed` gives its width and height). */
  predicate AllEmbed(kept: seq<Upload>, embed: Bytes -> Option<Page>) {
    forall k :: 0 <= k < |kept| ==> embed(kept[k].buffer).Some?
  }

  /** One page per kept image, sized as the image. */
  function ImagePages(kept: seq<Upload>, embed: Bytes -> Option<Page>): (pages: seq<Page>)
    requires AllEmbed(kept, embed)
    ensures |pages| == |kept|
  {
    seq(|kept|, k requires 0 <= k < |kept| => embed(kept[k].buffer).value)
  }

  /** `POST /jpg-to-pdf` and `POST /png-to-pdf`. `files` is None when the
      request is not multipart, as for `Merge`. */
  method ImagesToPdf(kind: ImageKind, files: Option<seq<Upload>>, embed: Bytes -> Option<Page>) returns (r: PdfReply)
    ensures files.None? ==> r == Unhandled
    ensures files.Some? && files.value == [] ==> r == JsonError(400, NoImagesMessage(kind))
    ensures files.Some? && files.value != [] && !AllEmbed(Kept(files.value, kind), embed) ==>
              r == JsonError(500, ConvertFailed)
    ensures files.Some? && files.value != [] && AllEmbed(Kept(files.value, kind), embed) ==>
              r == FileSent(PdfType, Attached(ConvertedName(kind)), Pdf(ImagePages(Kept(files.value, kind), embed)))
  {
    if files.None? {
      return Unhandled;
    }
    var fs := files.value;
    if |fs| == 0 {
      return JsonError(400, NoImagesMessage(kind));
    }
    var mime := AcceptedType(kind);
    var pages: seq<Page> := [];
    var i := 0;
    while i < |fs|
      invariant 0 <= i <= |fs|
      invariant AllEmbed(Kept(fs[..i], kind), embed)
      invariant pages == ImagePages(Kept(fs[..i], kind), embed)
    {
      if fs[i].mimetype == mime {
        var image := embed(fs[i].buffer);
        if image.None? {
          EmbedFailure(fs, i, kind, embed);
          return JsonError(500, ConvertFailed);
        }
        KeepStep(fs, i, kind, embed);
        pages := pages + [image.value];
      } else {
        SkipStep(fs, i, kind);
      }
      i := i + 1;
    }
    assert fs[..i] == fs;
    r := FileSent(PdfType, Attached(ConvertedName(kind)), Pdf(pages));
  }

  /** A round of the loop that keeps `fs[i]` adds its page. */
  lemma KeepStep(fs: seq<Upload>, i: nat, kind: ImageKind, embed: Bytes -> Option<Page>)
    requires i < |fs| && fs[i].mimetype == AcceptedType(kind) && embed(fs[i].buffer).Some?
    requires AllEmbed(Kept(fs[..i], kind), embed)
    ensures AllEmbed(Kept(fs[..i + 1], kind), embed)
    ensures ImagePages(Kept(fs[..i + 1], kind), embed)
         == ImagePages(Kept(fs[..i], kind), embed) + [embed(fs[i].buffer).value]
  {
    KeptSnoc(fs[..i], fs[i], kind);
    assert fs[..i + 1] == fs[..i] + [fs[i]];
    assert Kept(fs[..i + 1], kind) == Kept(fs[..i], kind) + [fs[i]];
  }

  /** A round of the loop that skips `fs[i]` changes nothing. */
  lemma SkipStep(fs: seq<Upload>, i: nat, kind: ImageKind)
    requires i < |fs| && fs[i].mimetype != AcceptedType(kind)
    ensures Kept(fs[..i + 1], kind) == Kept(fs[..i], kind)
  {
    KeptSnoc(fs[..i], fs[i], kind);
    assert fs[..i + 1] == fs[..i] + [fs[i]];
    assert Kept(fs[..i], kind) + [] == Kept(fs[..i], kind);
  }

  /** A kept image that does not embed spoils the whole conversion. */
  lemma EmbedFailure(fs: seq<Upload>, i: nat, kind: ImageKind, embed: Bytes -> Option<Page>)
    requires i < |fs| && fs[i].mimetype == AcceptedType(kind) && embed(fs[i].buffer).None?
    ensures !AllEmbed(Kept(fs, kind), embed)
  {
    KeptSnoc(fs[..i], fs[i], kind);
    assert fs[..i + 1] == fs[..i] + [fs[i]];
    KeptPrefix(fs, i + 1, kind);
    var n := |Kept(fs[..i], kind)|;
    assert Kept(fs[..i + 1], kind)[n] == fs[i];
    assert Kept(fs, kind)[n] == fs[i];
  }

  /** Keeping files one more file at a time. */
  lemma {:induction false} KeptSnoc(fs: seq<Upload>, f: Upload, kind: ImageKind)
    ensures Kept(fs + [f], kind) == Kept(fs, kind) + (if f.mimetype == AcceptedType(kind) then [f] else [])
    decreases |fs|
  {
    if fs != [] {
      assert (fs + [f])[1..] == fs[1..] + [f];
      KeptSnoc(fs[1..], f, kind);
    } else {
      assert [f][1..] == [];
    }
  }

  /** The files kept from a prefix are a prefix of the files kept. */
  lemma {:induction false} KeptPrefix(fs: seq<Upload>, n: nat, kind: ImageKind)
    requires n <= |fs|
    ensures Kept(fs[..n], kind) <= Kept(fs, kind)
    decreases |fs|
  {
    if n > 0 {
      assert fs[..n][1..] == fs[1..][..n - 1];
      KeptPrefix(fs[1..], n - 1, kind);
    }
  }

  /** When no file has the accepted type the answer is a PDF with no pages,
      not an error. */
  lemma AllSkippedIsEmptyPdf(kind: ImageKind, files: seq<Upload>, embed: Bytes -> Option<Page>)
    requires files != []
    requires forall k :: 0 <= k < |files| ==> files[k].mimetype != AcceptedType(kind)
    ensures AllEmbed(Kept(files, kind), embed) && ImagePages(Kept(files, kind), embed) == []
  {
    KeptNone(files, kind);
  }

  lemma {:induction false} KeptNone(files: seq<Upload>, kind: ImageKind)
    requires forall k :: 0 <= k < |files| ==> files[k].mimetype != AcceptedType(kind)
    ensures Kept(files, kind) == []
    decreases |files|
  {
    if files != [] {
      assert files[0].mimetype != AcceptedType(kind);
      KeptNone(files[1..], kind);
    }
  }

  /** Each page of the converted PDF is sized as a kept image, in upload
      order, and only files of the accepted type contribute. */
  lemma ImagePagesFollowUploads(kind: ImageKind, files: seq<Upload>, embed: Bytes -> Option<Page>)
    requires AllEmbed(Kept(files, kind), embed)
    ensures forall k :: 0 <= k < |ImagePages(Kept(files, kind), embed)| ==>
              var u := Kept(files, kind)[k];
              u in files && u.mimetype == AcceptedType(kind)
              && ImagePages(Kept(files, kind), embed)[k] == embed(u.buffer).value
    ensures |ImagePages(Kept(files, kind), embed)| <= |files|
    ensures forall n :: 0 <= n <= |files| ==> Kept(files[..n], kind) <= Kept(files, kind)
  {
    forall n | 0 <= n <= |files| ensures Kept(files[..n], kind) <= Kept(files, kind) {
      KeptPrefix(files, n, kind);
    }
    var kept := Kept(files, kind);
    forall k | 0 <= k < |kept| ensures kept[k] in files && kept[k].mimetype == AcceptedType(kind) {
      assert kept[k] in kept;
    }
  }
}
