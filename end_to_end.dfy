/** What the app's health check and sources list see of a run of the rebuild script. */
module EndToEnd {
  import opened Common
  import opened Repair
  import opened App

  /** The listing of a vector-store folder, `None` when it does not exist. */
  function Entries(v: Option<VectorDir>): (r: Option<seq<string>>)
    ensures r.Some? <==> v.Some?
    ensures v.Some? ==> r.value == v.value.entries
  {
    match v
    case None => None
    case Some(d) => Some(d.entries)
  }

  /** The health check run on the folders a run of the script leaves behind. */
  function HealthAfter(before: Disk, o: Oracles, reply: ListReply): map<string, HealthValue>
  {
    var r := RepairRun(before, o);
    Health(reply, Entries(r.disk.vectorstore), r.disk.documents)
  }

  /** After a run of the script, the app opens its question interface exactly when the
      run loaded at least one page and saved the index, and Ollama listed its models. */
  lemma ReadyAfterRepair(before: Disk, o: Oracles, reply: ListReply)
    ensures var h := HealthAfter(before, o, reply);
      "vectorstore" in h && "ollama" in h && h["ollama"].Ollama? &&
      (SystemReady(h) <==>
        before.documents.Some? && o.embeddingsLoad && o.buildSucceeds &&
        Collect(before.documents.value, o) != [] && reply.Listed? && AllNamed(reply.models))
  {
    var r := RepairRun(before, o);
    IndexOnlyFromDocuments(before, o);
    ReadyIff(reply, Entries(r.disk.vectorstore), r.disk.documents);
  }

  /** When the documents folder was missing, the script creates it empty; the app then
      reports no PDF and stays closed, whatever Ollama says. */
  lemma MissingFolderStaysClosed(before: Disk, o: Oracles, reply: ListReply)
    requires before.documents.None?
    ensures var h := HealthAfter(before, o, reply);
      "documents" in h && h["documents"] == Text(NoPdfFound) &&
      "vectorstore" in h && h["vectorstore"] == Text(VectorstoreMissing) &&
      "ollama" in h && h["ollama"].Ollama? && !SystemReady(h)
  {
    MissingDocumentsFolder(before, o);
  }

  /** A folder of one entry collects what that entry contributes. */
  lemma CollectOne(name: string, o: Oracles)
    ensures Collect([name], o) == Contribution(name, o)
  {
    ConcatMapStep([name], 0, ContributionOf(o));
    assert [name][..1] == [name] && [name][..0] == [];
  }

  /** A one-entry folder whose name lacks the lower-case `.pdf` ending counts no PDF. */
  lemma NotPdfGlob(name: string)
    requires |name| >= 4 && name[|name| - 4..] != ".pdf"
    ensures DocumentsStatus(Some([name])) == NoPdfFound
  {
  }

  /** A run over a folder of one entry whose loader returns pages saves an index of those
      pages; the documents status is that of the folder, and the gate depends on Ollama alone. */
  lemma OneFileRun(before: Disk, o: Oracles, reply: ListReply, name: string, pages: seq<Document>)
    requires before.documents == Some([name])
    requires TryLoad(name, o).Loaded? && TryLoad(name, o).pages == pages && pages != []
    requires o.embeddingsLoad && o.buildSucceeds
    ensures var r := RepairRun(before, o); var h := HealthAfter(before, o, reply);
      r.loaded == Tagged(pages, name) &&
      r.disk.vectorstore == Some(SavedDir(o.split(Tagged(pages, name)))) &&
      h["documents"] == Text(DocumentsStatus(Some([name]))) &&
      (SystemReady(h) <==> reply.Listed? && AllNamed(reply.models))
  {
    CollectOne(name, o);
    ReadyAfterRepair(before, o, reply);
    IndexOnlyFromDocuments(before, o);
  }

  /** A run over a folder holding only `Rapport.PDF`, whose loader returns pages, saves
      an index of those pages. The health check's case-sensitive `*.pdf` pattern still
      counts no PDF, and the gate then depends on Ollama alone. */
  lemma UpperCasePdfIndexedNotCounted(before: Disk, o: Oracles, reply: ListReply, pages: seq<Document>)
    requires before.documents == Some(["Rapport.PDF"])
    requires o.pdfLoader("Rapport.PDF") == Ok(pages) && pages != []
    requires o.embeddingsLoad && o.buildSucceeds
    ensures var r := RepairRun(before, o); var h := HealthAfter(before, o, reply);
      r.loaded == Tagged(pages, "Rapport.PDF") &&
      r.disk.vectorstore == Some(SavedDir(o.split(Tagged(pages, "Rapport.PDF")))) &&
      h["documents"] == Text(NoPdfFound) &&
      (SystemReady(h) <==> reply.Listed? && AllNamed(reply.models))
  {
    UpperCasePdfIsLoaded();
    NotPdfGlob("Rapport.PDF");
    OneFileRun(before, o, reply, "Rapport.PDF", pages);
  }

  /** Likewise for a folder holding only `notes.Docx`: the index is saved and the app
      can open while the documents status says that no PDF was found. */
  lemma DocxOnlyFolder(before: Disk, o: Oracles, reply: ListReply, pages: seq<Document>)
    requires before.documents == Some(["notes.Docx"])
    requires o.docxLoader("notes.Docx") == Ok(pages) && pages != []
    requires o.embeddingsLoad && o.buildSucceeds
    ensures var r := RepairRun(before, o); var h := HealthAfter(before, o, reply);
      r.loaded == Tagged(pages, "notes.Docx") &&
      r.disk.vectorstore == Some(SavedDir(o.split(Tagged(pages, "notes.Docx")))) &&
      h["documents"] == Text(NoPdfFound) &&
      (SystemReady(h) <==> reply.Listed? && AllNamed(reply.models))
  {
    MixedCaseDocxIsLoaded();
    NotPdfGlob("notes.Docx");
    OneFileRun(before, o, reply, "notes.Docx", pages);
  }

  /** In the sources list, a page the script loaded is labelled with the folder entry it
      came from, as long as entry names hold no `/`. */
  lemma LabelNamesLoadedFile(files: seq<string>, o: Oracles, k: int)
    requires forall i, j :: 0 <= i < |files| && 0 <= j < |files[i]| ==> files[i][j] != '/'
    requires 0 <= k < |Collect(files, o)|
    ensures var l := SourceLabels(Collect(files, o))[k];
      l.number == k + 1 && l.file in files && Kind(l.file) != Unsupported &&
      SourceKey in Collect(files, o)[k].metadata && l.file == Collect(files, o)[k].metadata[SourceKey] &&
      l.content == Collect(files, o)[k].pageContent
  {
    var docs := Collect(files, o);
    CollectedSources(files, o, k);
    var name := docs[k].metadata[SourceKey];
    assert forall j :: 0 <= j < |name| ==> name[j] != '/';
    SourceLabelAt(docs, k);
    PlainSourceShown(docs, k);
  }
}
