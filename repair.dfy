/** The index-rebuild script: it deletes the old vector store, loads every PDF and
    DOCX file of the documents folder, tags each page with its file name, and builds
    and saves a new index only when at least one page was loaded. */
module Repair {
  import opened Common

  // ---------------------------------------------------------------------------
  // Collaborators
  // ---------------------------------------------------------------------------

  /** The library calls the script makes, as oracles. */
  datatype Oracles = Oracles(
    embeddingsLoad: bool,                      // HuggingFaceEmbeddings(...) returns rather than raising
    pdfLoader: string -> Result<seq<Document>>,  // PyPDFLoader(path).load(), by file name
    docxLoader: string -> Result<seq<Document>>, // Docx2txtLoader(path).load(), by file name
    split: seq<Document> -> seq<Document>,       // RecursiveCharacterTextSplitter.split_documents
    buildSucceeds: bool)                       // FAISS.from_documents(...) returns rather than raising

  /** A saved FAISS index: the embedding model it was built with and its chunks. */
  datatype Index = Index(embeddingModel: string, chunks: seq<Document>)

  /** The vector-store folder: its entries, and the index it holds if it holds one. */
  datatype VectorDir = VectorDir(entries: seq<string>, index: Option<Index>)

  /** The files `save_local` writes into the vector-store folder. */
  const SavedFiles := ["index.faiss", "index.pkl"]

  /** The lines the script prints, in the order it prints them. */
  datatype Message =
    | Starting
    | OldIndexRemoved
    | DocumentsDirMissing
    | DocumentsDirCreated
    | LoadingEmbeddings
    | LoadingDocuments
    | PdfLoaded(file: string, pages: nat)
    | DocxLoaded(file: string, sections: nat)
    | FileError(file: string, reason: string)
    | BuildingIndex(chunks: nat)
    | IndexRebuilt
    | IndexedChunks(count: nat)
    | NoDocumentsFound
    | AddFilesHint

  /** Whether `repair_vectorstore` returned or an exception escaped it. */
  datatype Outcome = Returned | Raised

  /** The two folders the script looks at; `None` is a folder that does not exist,
      `documents` lists the folder's entries in directory-iteration order. */
  datatype Disk = Disk(vectorstore: Option<VectorDir>, documents: Option<seq<string>>)

  /** Everything one run of the script produces. */
  datatype Run = Run(disk: Disk, loaded: seq<Document>, output: seq<Message>, outcome: Outcome)

  // ---------------------------------------------------------------------------
  // Extension dispatch
  // ---------------------------------------------------------------------------

  datatype FileKind = Pdf | Docx | Unsupported

  function LowerChar(c: char): char
  {
    if 'A' <= c <= 'Z' then ((c as int) + 32) as char else c
  }

  /** `str.lower()` on the letters A to Z: no capital is left, a capital becomes the
      letter 32 code points after it, and every other character is kept. */
  function Lower(s: string): (r: string)
    ensures |r| == |s|
    ensures forall i :: 0 <= i < |r| ==> !('A' <= r[i] <= 'Z')
    ensures forall i :: 0 <= i < |s| && 'A' <= s[i] <= 'Z' ==> r[i] as int == s[i] as int + 32
    ensures forall i :: 0 <= i < |s| && !('A' <= s[i] <= 'Z') ==> r[i] == s[i]
  {
    seq(|s|, i requires 0 <= i < |s| => LowerChar(s[i]))
  }

  /** `PurePath.suffix` of a file name: from its last dot on, provided that dot is
      neither the first nor the last character; otherwise empty. */
  function Suffix(name: string): (r: string)
    ensures r == [] || (2 <= |r| < |name| && r == name[|name| - |r|..])
    ensures r != [] ==> r[0] == '.' && forall j :: 1 <= j < |r| ==> r[j] != '.'
    ensures r != [] <==> exists i :: 0 < i < |name| - 1 && name[i] == '.' && LastDot(name, i)
  {
    var i := LastIndexOf(name, '.');
    if 0 < i < |name| - 1 then name[i..] else ""
  }

  /** No dot follows position `i` of `name`. */
  predicate LastDot(name: string, i: int)
  {
    forall j :: 0 <= j < |name| && i < j ==> name[j] != '.'
  }

  /** Lower-casing twice is lower-casing once. */
  lemma LowerIdempotent(s: string)
    ensures Lower(Lower(s)) == Lower(s)
  {
  }

  /** The loader a file is sent to, chosen by its lower-cased suffix. */
  function Kind(name: string): FileKind
  {
    var ext := Lower(Suffix(name));
    if ext == ".pdf" then Pdf else if ext == ".docx" then Docx else Unsupported
  }

  /** Reference reading of "has extension `ext`, ignoring case": the name is longer
      than `ext` and its last `|ext|` characters lower-case to `ext`. */
  predicate HasExtension(name: string, ext: string)
  {
    |name| > |ext| && Lower(name[|name| - |ext|..]) == ext
  }

  lemma SuffixIsExtension(name: string, ext: string)
    requires |ext| >= 2 && ext[0] == '.'
    requires forall j :: 1 <= j < |ext| ==> ext[j] != '.'
    ensures Lower(Suffix(name)) == ext <==> HasExtension(name, ext)
  {
    var i := LastIndexOf(name, '.');
    if HasExtension(name, ext) {
      var p := |name| - |ext|;
      assert Lower(name[p..])[0] == LowerChar(name[p]) == '.';
      assert name[p] == '.';
      forall j | p < j < |name|
        ensures name[j] != '.'
      {
        assert Lower(name[p..])[j - p] == LowerChar(name[j]) == ext[j - p];
      }
      assert i == p;
      assert Suffix(name) == name[p..];
    }
  }

  /** Only a name ending in `.pdf` or `.docx`, in any case and with something before
      the dot, reaches a loader. */
  lemma KindIsExtension(name: string)
    ensures Kind(name) == Pdf <==> HasExtension(name, ".pdf")
    ensures Kind(name) == Docx <==> HasExtension(name, ".docx")
    ensures Kind(name) == Unsupported <==> !HasExtension(name, ".pdf") && !HasExtension(name, ".docx")
  {
    SuffixIsExtension(name, ".pdf");
    SuffixIsExtension(name, ".docx");
  }

  lemma LowerIs(s: string, t: string)
    requires |s| == |t| && forall i :: 0 <= i < |s| ==> LowerChar(s[i]) == t[i]
    ensures Lower(s) == t
  {
  }

  /** One character that does not lower-case to the extension's rules the extension out. */
  lemma NotExtension(name: string, ext: string, k: int)
    requires |name| > |ext| && 0 <= k < |ext|
    requires LowerChar(name[|name| - |ext| + k]) != ext[k]
    ensures !HasExtension(name, ext)
  {
    assert Lower(name[|name| - |ext|..])[k] == LowerChar(name[|name| - |ext| + k]);
  }

  /** `.PDF` in capitals still selects the PDF loader. */
  lemma UpperCasePdfIsLoaded()
    ensures Kind("Rapport.PDF") == Pdf
  {
    var name := "Rapport.PDF";
    assert name[7..] == ".PDF";
    LowerIs(".PDF", ".pdf");
    KindIsExtension(name);
  }

  lemma MixedCaseDocxIsLoaded()
    ensures Kind("notes.Docx") == Docx
  {
    var name := "notes.Docx";
    assert name[5..] == ".Docx";
    LowerIs(".Docx", ".docx");
    KindIsExtension(name);
  }

  lemma TextFileIsSkipped()
    ensures Kind("notes.txt") == Unsupported
  {
    var name := "notes.txt";
    NotExtension(name, ".pdf", 1);
    NotExtension(name, ".docx", 0);
    KindIsExtension(name);
  }

  /** A bare `.pdf` has no suffix: its only dot is the first character. */
  lemma DotFileIsSkipped()
    ensures Kind(".pdf") == Unsupported
  {
    KindIsExtension(".pdf");
  }

  lemma OnlyLastSuffixCounts()
    ensures Kind("scan.pdf.bak") == Unsupported
  {
    var name := "scan.pdf.bak";
    NotExtension(name, ".pdf", 1);
    NotExtension(name, ".docx", 0);
    KindIsExtension(name);
  }

  // ---------------------------------------------------------------------------
  // Per-file loading
  // ---------------------------------------------------------------------------

  function Loader(kind: FileKind, o: Oracles): string -> Result<seq<Document>>
    requires kind != Unsupported
  {
    if kind == Pdf then o.pdfLoader else o.docxLoader
  }

  function WithSource(d: Document, name: string): Document
  {
    d.(metadata := d.metadata[SourceKey := name])
  }

  /** The loaded pages after `doc.metadata['source'] = file.name` on each. */
  function Tagged(docs: seq<Document>, name: string): (r: seq<Document>)
    ensures |r| == |docs|
  {
    seq(|docs|, i requires 0 <= i < |docs| => WithSource(docs[i], name))
  }

  lemma TaggedPages(docs: seq<Document>, name: string, i: int)
    requires 0 <= i < |docs|
    ensures Tagged(docs, name)[i].pageContent == docs[i].pageContent
    ensures SourceKey in Tagged(docs, name)[i].metadata
    ensures Tagged(docs, name)[i].metadata[SourceKey] == name
    ensures forall key :: key in docs[i].metadata && key != SourceKey ==>
              key in Tagged(docs, name)[i].metadata && Tagged(docs, name)[i].metadata[key] == docs[i].metadata[key]
    ensures Tagged(docs, name)[i].metadata.Keys == docs[i].metadata.Keys + {SourceKey}
  {
  }

  /** What the `try` block does with one directory entry: skips it, or calls the
      loader its suffix selects, which returns pages or raises. */
  datatype Attempt = Skipped | Loaded(kind: FileKind, pages: seq<Document>) | Errored(reason: string)

  function TryLoad(name: string, o: Oracles): (a: Attempt)
    ensures a.Skipped? <==> Kind(name) == Unsupported
    ensures a.Loaded? ==> a.kind == Kind(name) != Unsupported && Loader(a.kind, o)(name) == Ok(a.pages)
    ensures a.Errored? ==> Kind(name) != Unsupported && Loader(Kind(name), o)(name) == Failure(a.reason)
  {
    var kind := Kind(name);
    if kind == Unsupported then Skipped
    else match Loader(kind, o)(name)
      case Ok(docs) => Loaded(kind, docs)
      case Failure(e) => Errored(e)
  }

  /** The pages one directory entry adds to the document list. */
  function Contribution(name: string, o: Oracles): (r: seq<Document>)
    ensures TryLoad(name, o).Loaded? ==> r == Tagged(TryLoad(name, o).pages, name)
    ensures !TryLoad(name, o).Loaded? ==> r == []
    ensures forall i :: 0 <= i < |r| ==> SourceKey in r[i].metadata && r[i].metadata[SourceKey] == name
  {
    match TryLoad(name, o)
    case Loaded(_, docs) => Tagged(docs, name)
    case _ => []
  }

  /** What the loop prints for one directory entry. */
  function FileLog(name: string, o: Oracles): (r: seq<Message>)
    ensures |r| <= 1
    ensures forall j :: 0 <= j < |r| ==> IsFileMessage(r[j]) && FileOf(r[j]) == name
    ensures r == [] <==> TryLoad(name, o).Skipped?
    ensures var a := TryLoad(name, o);
      (a.Loaded? && a.kind == Pdf ==> r == [PdfLoaded(name, |a.pages|)]) &&
      (a.Loaded? && a.kind == Docx ==> r == [DocxLoaded(name, |a.pages|)]) &&
      (a.Errored? ==> r == [FileError(name, a.reason)])
  {
    match TryLoad(name, o)
    case Skipped => []
    case Loaded(kind, docs) => if kind == Pdf then [PdfLoaded(name, |docs|)] else [DocxLoaded(name, |docs|)]
    case Errored(e) => [FileError(name, e)]
  }

  function ContributionOf(o: Oracles): string -> seq<Document>
  {
    name => Contribution(name, o)
  }

  function FileLogOf(o: Oracles): string -> seq<Message>
  {
    name => FileLog(name, o)
  }

  /** The document list after the loop has gone through `files`. */
  function Collect(files: seq<string>, o: Oracles): seq<Document>
  {
    ConcatMap(files, ContributionOf(o))
  }

  /** What the loop prints while going through `files`. */
  function CollectLog(files: seq<string>, o: Oracles): seq<Message>
  {
    ConcatMap(files, FileLogOf(o))
  }

  // ---------------------------------------------------------------------------
  // The whole run, as a function of the disk before it
  // ---------------------------------------------------------------------------

  function SavedDir(chunks: seq<Document>): VectorDir
  {
    VectorDir(SavedFiles, Some(Index(EmbeddingModel, chunks)))
  }

  /** What is printed up to and including the removal of an old vector store. */
  function Prologue(hadIndex: bool): (r: seq<Message>)
    ensures |r| >= 1 && r[0] == Starting
    ensures OldIndexRemoved in r <==> hadIndex
    ensures forall k :: 0 <= k < |r| ==> !IsFileMessage(r[k])
  {
    if hadIndex then [Starting, OldIndexRemoved] else [Starting]
  }

  /** The result of the build step: the vector-store folder, what is printed and how
      the step ends. */
  datatype Build = Build(vectorstore: Option<VectorDir>, output: seq<Message>, outcome: Outcome)

  /** The `if documents:` block: split, build and save, or report that nothing was found. */
  function BuildStep(docs: seq<Document>, o: Oracles): (b: Build)
    ensures b.vectorstore.Some? <==> docs != [] && o.buildSucceeds
    ensures b.vectorstore.Some? ==> b.vectorstore.value.index == Some(Index(EmbeddingModel, o.split(docs)))
    ensures b.outcome == Raised <==> docs != [] && !o.buildSucceeds
    ensures docs == [] ==> b.output == [NoDocumentsFound, AddFilesHint]
    ensures docs != [] ==> |b.output| >= 1 && b.output[0] == BuildingIndex(|o.split(docs)|)
    ensures docs != [] && o.buildSucceeds ==>
      b.output == [BuildingIndex(|o.split(docs)|), IndexRebuilt, IndexedChunks(|o.split(docs)|)]
    ensures docs != [] && !o.buildSucceeds ==> b.output == [BuildingIndex(|o.split(docs)|)]
  {
    if docs == [] then
      Build(None, [NoDocumentsFound, AddFilesHint], Returned)
    else
      var chunks := o.split(docs);
      if !o.buildSucceeds then
        Build(None, [BuildingIndex(|chunks|)], Raised)
      else
        Build(Some(SavedDir(chunks)), [BuildingIndex(|chunks|), IndexRebuilt, IndexedChunks(|chunks|)], Returned)
  }

  /** The run once the old vector store is gone; its output follows the prologue. */
  function AfterRemoval(documents: Option<seq<string>>, o: Oracles): (r: Run)
    ensures r.disk.documents == (if documents.Some? then documents else Some([]))
    ensures r.disk.vectorstore.Some? ==> documents.Some? && o.embeddingsLoad
    ensures documents.Some? && !o.embeddingsLoad ==> r.loaded == [] && r.outcome == Raised
    ensures documents.Some? && o.embeddingsLoad ==> r.loaded == Collect(documents.value, o)
  {
    match documents
    case None =>
      Run(Disk(None, Some([])), [], [DocumentsDirMissing, DocumentsDirCreated], Returned)
    case Some(files) =>
      if !o.embeddingsLoad then
        Run(Disk(None, documents), [], [LoadingEmbeddings], Raised)
      else
        var docs := Collect(files, o);
        var b := BuildStep(docs, o);
        Run(Disk(b.vectorstore, documents), docs,
            [LoadingEmbeddings, LoadingDocuments] + CollectLog(files, o) + b.output, b.outcome)
  }

  /** One run of the script, as a function of the disk before it. */
  function RepairRun(before: Disk, o: Oracles): Run
  {
    var rest := AfterRemoval(before.documents, o);
    rest.(output := Prologue(before.vectorstore.Some?) + rest.output)
  }

  // ---------------------------------------------------------------------------
  // The script, step by step
  // ---------------------------------------------------------------------------

  /** The two folders next to the script, and its console. */
  class Workspace {
    var vectorstore: Option<VectorDir>
    var documents: Option<seq<string>>
    var console: seq<Message>

    constructor (vectorstore: Option<VectorDir>, documents: Option<seq<string>>)
      ensures this.vectorstore == vectorstore && this.documents == documents && console == []
    {
      this.vectorstore := vectorstore;
      this.documents := documents;
      console := [];
    }

    function State(): Disk
      reads this
    {
      Disk(vectorstore, documents)
    }

    method Say(m: Message)
      modifies this`console
      ensures console == old(console) + [m]
    {
      console := console + [m];
    }

    /** `doc.metadata['source'] = name` for every loaded page, one page at a time. */
    static method TagSource(docs: seq<Document>, name: string) returns (tagged: seq<Document>)
      ensures tagged == Tagged(docs, name)
    {
      tagged := docs;
      var j := 0;
      while j < |tagged|
        invariant 0 <= j <= |tagged| == |docs|
        invariant forall k :: 0 <= k < j ==> tagged[k] == WithSource(docs[k], name)
        invariant forall k :: j <= k < |tagged| ==> tagged[k] == docs[k]
      {
        tagged := tagged[j := WithSource(tagged[j], name)];
        j := j + 1;
      }
    }

    /** The body of the `try` for one entry: the pages it adds and the line it prints. */
    method LoadFile(file: string, o: Oracles) returns (docs: seq<Document>)
      modifies this`console
      ensures docs == Contribution(file, o)
      ensures console == old(console) + FileLog(file, o)
    {
      var kind := Kind(file);
      docs := [];
      if kind == Pdf || kind == Docx {
        match Loader(kind, o)(file)
        case Ok(pages) =>
          docs := TagSource(pages, file);
          if kind == Pdf {
            Say(PdfLoaded(file, |pages|));
          } else {
            Say(DocxLoaded(file, |pages|));
          }
        case Failure(e) =>
          Say(FileError(file, e));
      }
    }

    /** The `for` loop over the documents folder. */
    method LoadDocuments(files: seq<string>, o: Oracles) returns (loaded: seq<Document>)
      modifies this`console
      ensures loaded == Collect(files, o)
      ensures console == old(console) + CollectLog(files, o)
    {
      loaded := [];
      ghost var start := console;
      var i := 0;
      while i < |files|
        invariant 0 <= i <= |files|
        invariant loaded == Collect(files[..i], o)
        invariant console == start + CollectLog(files[..i], o)
      {
        ghost var log := CollectLog(files[..i], o);
        var docs := LoadFile(files[i], o);
        ConcatMapStep(files, i, ContributionOf(o));
        ConcatMapStep(files, i, FileLogOf(o));
        AppendAssoc(start, log, FileLog(files[i], o));
        loaded := loaded + docs;
        i := i + 1;
      }
      assert files[..i] == files;
    }

    /** `repair_vectorstore()`: `loaded` is its `documents` list when it returns or raises. */
    method RepairVectorstore(o: Oracles) returns (loaded: seq<Document>, outcome: Outcome)
      modifies this
      ensures var r := RepairRun(old(State()), o);
        State() == r.disk && loaded == r.loaded && outcome == r.outcome && console == old(console) + r.output
    {
      Say(Starting);
      if vectorstore.Some? {
        vectorstore := None;   // shutil.rmtree
        Say(OldIndexRemoved);
      }
      ghost var c1 := console;
      assert c1 == old(console) + Prologue(old(vectorstore).Some?);
      loaded, outcome := RebuildFromDocuments(o);
      AppendAssoc(old(console), Prologue(old(vectorstore).Some?), AfterRemoval(documents, o).output);
    }

    /** Everything after the removal of the old vector store. */
    method RebuildFromDocuments(o: Oracles) returns (loaded: seq<Document>, outcome: Outcome)
      requires vectorstore.None?
      modifies this
      ensures var r := AfterRemoval(old(documents), o);
        State() == r.disk && loaded == r.loaded && outcome == r.outcome && console == old(console) + r.output
    {
      if documents.None? {
        Say(DocumentsDirMissing);
        documents := Some([]);  // mkdir
        Say(DocumentsDirCreated);
        loaded, outcome := [], Returned;
        return;
      }
      Say(LoadingEmbeddings);
      if !o.embeddingsLoad {
        loaded, outcome := [], Raised;
        return;
      }
      Say(LoadingDocuments);
      var files := documents.value;
      ghost var c1 := console;
      loaded := LoadDocuments(files, o);
      ghost var c2 := console;
      outcome := BuildIndex(loaded, o);
      ghost var head := [LoadingEmbeddings, LoadingDocuments];
      ghost var log := CollectLog(files, o);
      ghost var tail := BuildStep(loaded, o).output;
      assert c1 == old(console) + head;
      AppendAssoc(old(console), head, log);
      AppendAssoc(old(console), head + log, tail);
    }

    /** The `if documents:` block. */
    method BuildIndex(loaded: seq<Document>, o: Oracles) returns (outcome: Outcome)
      requires vectorstore.None?
      modifies this`vectorstore, this`console
      ensures var b := BuildStep(loaded, o);
        vectorstore == b.vectorstore && outcome == b.outcome && console == old(console) + b.output
    {
      if loaded != [] {
        var chunks := o.split(loaded);
        Say(BuildingIndex(|chunks|));
        if !o.buildSucceeds {
          outcome := Raised;
          return;
        }
        vectorstore := Some(SavedDir(chunks));  // save_local
        Say(IndexRebuilt);
        Say(IndexedChunks(|chunks|));
      } else {
        Say(NoDocumentsFound);
        Say(AddFilesHint);
      }
      outcome := Returned;
    }
  }

  lemma AppendAssoc<T>(a: seq<T>, b: seq<T>, c: seq<T>)
    ensures a + (b + c) == (a + b) + c
  {
  }

  // ---------------------------------------------------------------------------
  // Properties of the document list
  // ---------------------------------------------------------------------------

  /** Entry `j` adds its pages between those of the entries before it and after it;
      so the list follows directory order, then loader order within a file. */
  lemma CollectAround(files: seq<string>, j: int, o: Oracles)
    requires 0 <= j < |files|
    ensures Collect(files, o) == Collect(files[..j], o) + Contribution(files[j], o) + Collect(files[j + 1..], o)
  {
    ConcatMapAround(files, j, ContributionOf(o));
  }

  /** A file the loop skips or whose loader raises changes nothing for the others. */
  lemma FailedFileTolerated(files: seq<string>, j: int, o: Oracles)
    requires 0 <= j < |files|
    requires Kind(files[j]) == Unsupported || Loader(Kind(files[j]), o)(files[j]).Failure?
    ensures Collect(files, o) == Collect(files[..j], o) + Collect(files[j + 1..], o)
  {
    CollectAround(files, j, o);
  }

  /** Every collected page names, as its source, a PDF or DOCX entry of the folder
      whose loader returned. */
  lemma CollectedSources(files: seq<string>, o: Oracles, k: int)
    requires 0 <= k < |Collect(files, o)|
    ensures var d := Collect(files, o)[k];
      SourceKey in d.metadata && d.metadata[SourceKey] in files &&
      Kind(d.metadata[SourceKey]) != Unsupported &&
      Loader(Kind(d.metadata[SourceKey]), o)(d.metadata[SourceKey]).Ok?
  {
    var i, m := ConcatMapOrigin(files, ContributionOf(o), k);
    var c := Contribution(files[i], o);
    assert c[m].metadata[SourceKey] == files[i];
  }

  /** Total number of pages and sections the loop reports as loaded. */
  function ReportedPages(log: seq<Message>): nat
  {
    if log == [] then 0
    else
      ReportedPages(log[..|log| - 1]) +
      match log[|log| - 1]
      case PdfLoaded(_, n) => n
      case DocxLoaded(_, n) => n
      case _ => 0
  }

  lemma {:induction false} ReportedPagesAppend(a: seq<Message>, b: seq<Message>)
    ensures ReportedPages(a + b) == ReportedPages(a) + ReportedPages(b)
  {
    if b != [] {
      var b' := b[..|b| - 1];
      assert (a + b)[..|a + b| - 1] == a + b';
      ReportedPagesAppend(a, b');
    } else {
      assert a + b == a;
    }
  }

  lemma FilePagesReported(name: string, o: Oracles)
    ensures ReportedPages(FileLog(name, o)) == |Contribution(name, o)|
  {
    var log := FileLog(name, o);
    if log != [] {
      assert log[..0] == [];
    }
  }

  /** The page counts printed per file add up to the length of the document list. */
  lemma {:induction false} ReportedPagesAreLoaded(files: seq<string>, o: Oracles)
    ensures ReportedPages(CollectLog(files, o)) == |Collect(files, o)|
  {
    if files != [] {
      var init := files[..|files| - 1];
      var last := files[|files| - 1];
      ReportedPagesAreLoaded(init, o);
      assert CollectLog(files, o) == CollectLog(init, o) + FileLog(last, o);
      assert Collect(files, o) == Collect(init, o) + Contribution(last, o);
      ReportedPagesAppend(CollectLog(init, o), FileLog(last, o));
      FilePagesReported(last, o);
    }
  }

  /** A file name the loop prints about, or "" for the other lines. */
  function FileOf(m: Message): string
  {
    match m
    case PdfLoaded(f, _) => f
    case DocxLoaded(f, _) => f
    case FileError(f, _) => f
    case _ => ""
  }

  predicate IsFileMessage(m: Message)
  {
    m.PdfLoaded? || m.DocxLoaded? || m.FileError?
  }

  /** The loop prints about PDF and DOCX entries of the folder only, naming the entry. */
  lemma CollectLogNamesLoadedFiles(files: seq<string>, o: Oracles, k: int)
    requires 0 <= k < |CollectLog(files, o)|
    ensures var m := CollectLog(files, o)[k];
      IsFileMessage(m) && FileOf(m) in files && Kind(FileOf(m)) != Unsupported
  {
    var i, j := ConcatMapOrigin(files, FileLogOf(o), k);
    var log := FileLog(files[i], o);
    assert IsFileMessage(log[j]) && FileOf(log[j]) == files[i];
  }

  // ---------------------------------------------------------------------------
  // Properties of a run
  // ---------------------------------------------------------------------------

  /** A vector store exists after a run exactly when documents were loaded and the
      build succeeded; otherwise the run leaves none, since the old one is gone. */
  lemma IndexOnlyFromDocuments(before: Disk, o: Oracles)
    ensures var r := RepairRun(before, o);
      r.disk.vectorstore.Some? <==>
        before.documents.Some? && o.embeddingsLoad && o.buildSucceeds && Collect(before.documents.value, o) != []
    ensures var r := RepairRun(before, o);
      r.disk.vectorstore.Some? ==> r.disk.vectorstore.value == SavedDir(o.split(r.loaded)) && r.loaded != []
  {
  }

  /** A run raises only when the embeddings fail to load or, once pages were collected,
      the build fails; a loader that raises never ends the run. */
  lemma RunRaises(before: Disk, o: Oracles)
    ensures RepairRun(before, o).outcome == Raised <==>
      before.documents.Some? &&
      (!o.embeddingsLoad || (Collect(before.documents.value, o) != [] && !o.buildSucceeds))
  {
  }

  /** A missing documents folder is created empty and nothing is loaded or built. */
  lemma MissingDocumentsFolder(before: Disk, o: Oracles)
    requires before.documents.None?
    ensures var r := RepairRun(before, o);
      r.disk == Disk(None, Some([])) && r.loaded == [] && r.outcome == Returned &&
      forall k :: 0 <= k < |r.output| ==> !IsFileMessage(r.output[k])
  {
  }

  /** An existing vector store is removed, and that is reported, before any file is
      looked at. */
  lemma OldIndexRemovedFirst(before: Disk, o: Oracles)
    requires before.vectorstore.Some?
    ensures var r := RepairRun(before, o);
      |r.output| >= 2 && r.output[1] == OldIndexRemoved &&
      forall k :: 0 <= k < |r.output| && IsFileMessage(r.output[k]) ==> k > 1
  {
  }

  /** The page list is what the loaders returned, file by file in directory order,
      and an entry that raised contributes nothing. */
  lemma LoadedInDirectoryOrder(before: Disk, o: Oracles, j: int)
    requires before.documents.Some? && o.embeddingsLoad
    requires 0 <= j < |before.documents.value|
    ensures var files := before.documents.value;
      RepairRun(before, o).loaded == Collect(files[..j], o) + Contribution(files[j], o) + Collect(files[j + 1..], o)
  {
    CollectAround(before.documents.value, j, o);
  }

  /** The chunk count printed before and after the build is the size of the index
      that was saved. */
  lemma ReportedCountIsIndexSize(before: Disk, o: Oracles)
    ensures var r := RepairRun(before, o);
      r.disk.vectorstore.Some? ==>
        var ix := r.disk.vectorstore.value.index;
        ix.Some? && ix.value.chunks == o.split(r.loaded) && ix.value.embeddingModel == EmbeddingModel &&
        r.output[|r.output| - 3] == BuildingIndex(|ix.value.chunks|) &&
        r.output[|r.output| - 1] == IndexedChunks(|ix.value.chunks|)
  {
  }
}
