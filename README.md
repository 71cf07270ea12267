# Assistant RAG Local — a Dafny model of the index rebuild and the query-side logic

Assistant RAG Local is a local question-answering app over a folder of PDF and
DOCX files. This project models two parts of it:

- **The rebuild script.** `repair_vectorstore` deletes the FAISS vector store and walks
  the `documents` folder. It hands each `.pdf` or `.docx` entry to its loader, matching
  the suffix case-insensitively, and sets each page's `source` metadata to the file
  name. A file that raises is survived. The script splits the pages, then builds and
  saves a new index, but only when at least one page was loaded.
- **The app.** `get_model_choice` reads the configured model name. `check_system_health`
  fills a status dictionary. `main` gates the question interface on that dictionary,
  joins the retrieved chunks into a context and builds the French prompt. It also
  labels the sources.

Files:

- `common.dfy` (module `Common`): documents, `Option`/`Result`, `rfind`, and decimal
  printing with its read-back.
- `repair.dfy` (module `Repair`): the script on two levels.
  - `RepairRun` and the functions it uses describe a whole run as a value: the disk
    after it, the page list, the printed lines and whether an exception escaped.
  - The class `Workspace` holds the two folders and the console as fields. Its
    methods (`RepairVectorstore`, `RebuildFromDocuments`, `LoadDocuments`, `LoadFile`,
    `TagSource`, `BuildIndex`) do the work step by step. Each is proved to produce
    what the functions describe.
- `app.dfy` (module `App`): the model-name reading, the health dictionary (the value
  `Health` and the key-by-key method `CheckSystemHealth`), the readiness gate, the
  context join, the prompt, the source labels, and the main area as one function
  `MainScreen`.
- `end_to_end.dfy` (module `EndToEnd`): what the app's health check sees after a run
  of the script.

The libraries are parameters:

- `HuggingFaceEmbeddings` loading, `FAISS.from_documents` with `save_local`, the two
  document loaders and `split_documents` (datatype `Repair.Oracles`);
- `ollama.list()` (datatype `App.ListReply`);
- the loaded FAISS store's `similarity_search` (datatype `App.Store`);
- `Ollama(model).invoke` (parameter `generate`).

Filesystem models:

- A folder is `None` when it does not exist. Otherwise it is the list of its entry
  names in iteration order.
- The configuration file is its content as read in text mode, where `\r` and `\r\n` are already `\n`, or `None` when reading it raised.
- The console is the sequence of `Repair.Message` values printed. The per-file
  results reach the user only through these lines.

Two Python details are modelled exactly. `Path.suffix` is the text from the last
dot, provided that dot is neither the first nor the last character. `str.strip()`
removes Python's whitespace set. Entries and paths are POSIX: `glob("*.pdf")` is
case-sensitive, and `basename` keeps what follows the last `/`.

Composing the two programs shows an inconsistency (`EndToEnd.UpperCasePdfIndexedNotCounted`,
`EndToEnd.DocxOnlyFolder`). The script indexes `Rapport.PDF` and `.docx` files, but the
health check counts only entries matching the case-sensitive `*.pdf`, so it can report
"no PDF found" for a folder whose index is in use. Readiness does not depend on that
status, so the app still opens.

## Model

| member | source | states |
|---|---|---|
| Common.DecimalRoundTrip | app.py:56 | the decimal text an f-string gives a count reads back as that count |
| Repair.Lower | repair_vectorstore.py:41 | lower-casing keeps the length, leaves no capital A to Z, turns each capital into its small letter and keeps every other character |
| Repair.LowerIdempotent | repair_vectorstore.py:41 | lower-casing twice is lower-casing once |
| Repair.Suffix | repair_vectorstore.py:41 | `Path.suffix` is non-empty exactly when the name has a last dot that is neither its first nor its last character; it is then the tail from that dot, holds no other dot and is shorter than the name |
| Repair.SuffixIsExtension | repair_vectorstore.py:41 | for a one-dot extension, the lower-cased suffix equals it exactly when the name ends with it case-insensitively and has something before it |
| Repair.KindIsExtension | repair_vectorstore.py:41-49 | a file goes to the PDF loader iff its name ends in `.pdf` in any case, to the DOCX loader iff it ends in `.docx`, and is skipped otherwise |
| Repair.Kind | repair_vectorstore.py:41-49 | the loader choice: the lower-cased suffix compared with `.pdf`, then `.docx`; `KindIsExtension` states what it selects |
| Repair.UpperCasePdfIsLoaded | repair_vectorstore.py:41 | `Rapport.PDF` goes to the PDF loader |
| Repair.MixedCaseDocxIsLoaded | repair_vectorstore.py:49 | `notes.Docx` goes to the DOCX loader |
| Repair.TextFileIsSkipped | repair_vectorstore.py:41-49 | `notes.txt` reaches no loader |
| Repair.DotFileIsSkipped | repair_vectorstore.py:41 | a file named just `.pdf` has no suffix and is skipped |
| Repair.OnlyLastSuffixCounts | repair_vectorstore.py:41 | `scan.pdf.bak` is skipped: only the last suffix counts |
| Repair.TaggedPages | repair_vectorstore.py:44-45 | each tagged page keeps its text and every other metadata entry, has `source` set to the file name, and gains no key but `source` |
| Repair.Workspace.TagSource | repair_vectorstore.py:52-53 | the in-place loop over the pages gives exactly the tagged pages |
| Repair.TryLoad | repair_vectorstore.py:40-58 | a file is skipped iff its kind is unsupported, otherwise it is loaded or errored exactly as the loader of its kind answers |
| Repair.Contribution | repair_vectorstore.py:40-58 | a supported entry whose loader returned contributes exactly its pages in loader order, each tagged with the entry as source; any other entry contributes nothing |
| Repair.FileLog | repair_vectorstore.py:47-58 | a PDF prints `PdfLoaded` with its page count, a DOCX `DocxLoaded` with its section count, a raising loader `FileError` with the exception text, and a skipped entry prints nothing |
| Repair.Workspace.LoadFile | repair_vectorstore.py:40-58 | one iteration returns the file's contribution and appends its line to the console |
| Repair.Workspace.LoadDocuments | repair_vectorstore.py:39-58 | the loop builds the concatenated contributions of all entries in order and prints their lines in order |
| Repair.Collect | repair_vectorstore.py:37-58 | the document list after the loop: the contributions of the entries concatenated in directory order; `CollectAround` and `CollectedSources` state its properties |
| Repair.Workspace.BuildIndex | repair_vectorstore.py:60-77 | the build step leaves the vector store, console and outcome the build function describes |
| Repair.BuildStep | repair_vectorstore.py:60-77 | an index is saved iff pages were loaded and the build returned, holding the split pages with the MiniLM model; the step raises iff pages were loaded and the build raised; with no pages it prints the two warning lines; with pages it prints `BuildingIndex` with the chunk count first, followed on success by `IndexRebuilt` and `IndexedChunks` with the same count |
| Repair.Workspace.RebuildFromDocuments | repair_vectorstore.py:23-77 | from a state with no vector store, the rest of the script produces the run described for the documents folder |
| Repair.Workspace.RepairVectorstore | repair_vectorstore.py:9-77 | a whole run leaves the folders, the page list, the outcome and the printed lines of `RepairRun` for the state before it |
| Repair.RepairRun | repair_vectorstore.py:9-77 | one run as a value of the disk before it; `IndexOnlyFromDocuments`, `MissingDocumentsFolder`, `OldIndexRemovedFirst`, `ReportedCountIsIndexSize` and `RunRaises` state its properties |
| Repair.RunRaises | repair_vectorstore.py:31-72 | a run raises iff the documents folder exists and either the embeddings fail to load or pages were collected and the build or save raised; a loader that raises never ends the run |
| Repair.Prologue | repair_vectorstore.py:10-20 | the first line is the start banner, and the removal line is printed iff a vector store existed; no file line is among them |
| Repair.AfterRemoval | repair_vectorstore.py:23-77 | the documents folder afterwards is the one before, or an empty one when it was missing; an index exists only when the folder existed and the embeddings loaded; a failed embeddings load raises with nothing loaded, and otherwise the page list is the collected pages |
| Repair.CollectLog | repair_vectorstore.py:47-58 | the lines the loop prints: each entry's lines in directory order; `CollectLogNamesLoadedFiles` and `ReportedPagesAreLoaded` state its properties |
| Repair.Tagged | repair_vectorstore.py:44-53 | one tagged page per loaded page, in order; `TaggedPages` states what each holds |
| Repair.CollectAround | repair_vectorstore.py:39-58 | the page list is the pages before entry j, then entry j's contribution, then the pages after it |
| Repair.FailedFileTolerated | repair_vectorstore.py:57-58 | an entry whose loader raised (or that is skipped) contributes nothing, and the entries before and after it still contribute |
| Repair.CollectedSources | repair_vectorstore.py:44-54 | every collected page names a PDF or DOCX entry of the folder whose loader returned |
| Repair.ReportedPagesAreLoaded | repair_vectorstore.py:46-55 | the page and section counts printed per file add up to the length of the page list |
| Repair.CollectLogNamesLoadedFiles | repair_vectorstore.py:47-58 | every line the loop prints names a PDF or DOCX entry of the folder |
| Repair.IndexOnlyFromDocuments | repair_vectorstore.py:18-77 | a vector store exists afterwards iff the documents folder existed, the embeddings loaded, pages were collected and the build succeeded; it then holds the split of those pages |
| Repair.MissingDocumentsFolder | repair_vectorstore.py:23-27 | with no documents folder, the run creates it empty, loads nothing, leaves no index, returns and prints no file line |
| Repair.OldIndexRemovedFirst | repair_vectorstore.py:18-20 | an existing vector store is removed, and that is printed second, before any file line |
| Repair.LoadedInDirectoryOrder | repair_vectorstore.py:39-54 | the run's page list is the contributions in directory-iteration order, each file's pages in loader order |
| Repair.ReportedCountIsIndexSize | repair_vectorstore.py:67-74 | the saved index holds exactly the split chunks with the MiniLM model, and both printed chunk counts are its size |
| App.Strip | app.py:28 | `strip()` returns the text between the leading and trailing whitespace runs, starting and ending with non-whitespace |
| App.StripCharacterization | app.py:28 | stripping surrounding whitespace of any length gives back the trimmed text |
| App.StripIdempotent | app.py:28 | stripping twice is stripping once |
| App.ModelChoice | app.py:23-30 | the configured name is the file content stripped, or `tinyllama` when reading raised |
| App.ModelChoiceIgnoresPadding | app.py:23-30 | a name written with surrounding blanks and a trailing newline is read back as the name |
| App.OllamaHealth | app.py:37-45 | the status is `✅ Connecté` iff Ollama listed models that all have a name; the model list is then the names in order, and it is empty on any error; a raising `ollama.list()` gives `❌ Erreur: ` followed by the exception text, and a record without `name` gives `❌ Erreur: 'name'` |
| App.VectorstoreStatus | app.py:48-51 | `✅ Trouvée` iff the folder exists and has an entry, `❌ Manquante` otherwise |
| App.MatchesPdfGlob | app.py:54-55 | an entry `glob("*.pdf")` yields; `PdfGlobStem` states which |
| App.PdfGlobStem | app.py:54-55 | an entry matches iff it is some text, possibly empty, followed by the lower-case `.pdf` |
| App.PdfCount | app.py:54-55 | the count is at most the number of entries and is zero iff no entry matches `*.pdf` |
| App.PdfCountMatches | app.py:54-55 | the count is the number of entries that match `*.pdf` |
| App.DocumentsStatus | app.py:54-58 | `❌ Aucun PDF trouvé` iff the folder is missing or has no `*.pdf` entry |
| App.DocumentsStatusCount | app.py:55-56 | otherwise the status is `✅ `, then the decimal text (digits, no leading zero) of the number of `*.pdf` entries, which reads back as that number, then ` PDF(s) trouvé(s)` |
| App.Health | app.py:32-60 | the dictionary has exactly the keys `ollama`, `vectorstore` and `documents`, holding the Ollama entry, the vector-store status and the documents status |
| App.CheckSystemHealth | app.py:32-60 | filling the dictionary key by key gives that dictionary |
| App.ReadyIff | app.py:105 | the question interface opens iff the vector-store folder is non-empty and Ollama listed named models |
| App.SystemReady | app.py:105 | the gate: the vector-store status is `✅ Trouvée` and the Ollama status is `✅ Connecté`; `ReadyIff` states when it opens |
| App.JoinAt | app.py:145 | in a join, element i starts at its offset, and the last element ends the text |
| App.JoinGap | app.py:145 | between element i and element i+1 there is exactly one separator |
| App.ContextLayout | app.py:145 | the context holds the chunk texts in retrieval order, separated by one blank line, with nothing after the last |
| App.ContextEmpty | app.py:145 | the context is empty exactly when nothing was retrieved or the one chunk retrieved is empty |
| App.Context | app.py:145 | the retrieved chunks' texts joined by a blank line; `ContextLayout` and `ContextEmpty` state its shape |
| App.PromptLayout | app.py:146-153 | the prompt is the instruction and `CONTEXTE:` line, the context, `QUESTION: ` and the query, then `RÉPONSE:`, in that order and nothing else |
| App.PromptInjective | app.py:146-153 | for contexts of one length, equal prompts come only from equal contexts and queries |
| App.Prompt | app.py:146-153 | the f-string prompt; `PromptLayout` states its parts |
| App.Basename | app.py:164 | the basename is the tail of the path after its last `/` and holds no `/` |
| App.SourceLabelAt | app.py:163-166 | label i is numbered i+1 and holds its chunk's text, the basename of its `source` (or `Inconnu`) and its page (or `N/A`) |
| App.PlainSourceShown | app.py:164 | a source without `/`, such as the file name the script stores, is shown unchanged |
| App.UnknownSourceIsPlain | app.py:164 | the default `Inconnu` is shown unchanged |
| App.SourceLabels | app.py:163-166 | one label per retrieved chunk, in retrieval order; `SourceLabelAt` states each label |
| App.Heading | app.py:164 | a heading starts with `Source ` and ends with the label's file; `HeadingNumber` gives the digits between |
| App.HeadingNumber | app.py:164 | heading i is `Source `, then the decimal digits of i+1 (reading back as i+1), then `: ` and the label's file |
| App.AnswerOnlyWhenReady | app.py:104-172 | the main area shows the not-ready error iff the gate is closed; an answer comes only from a non-empty query whose search returned, with the prompt and sources built from those chunks and the configured model |
| App.MainScreenWhenReady | app.py:104-172 | behind an open gate: a store that did not load, a search or a generation that raised shows `❌ Erreur: ` with the exception text; an empty query shows the question box; otherwise the answer with the prompt, the sources and the configured model |
| App.MainScreen | app.py:104-172 | the main area as a function of the health dictionary and the calls' answers; `AnswerOnlyWhenReady` and `MainScreenWhenReady` fix it in every case |
| EndToEnd.ReadyAfterRepair | app.py:105 | after a run of the script, the app opens iff the run loaded pages and saved the index, and Ollama listed named models |
| EndToEnd.MissingFolderStaysClosed | repair_vectorstore.py:23-27 | after a run that found no documents folder, the app reports no PDF, a missing vector store and is not ready |
| EndToEnd.OneFileRun | repair_vectorstore.py:39-77 | a run over a one-entry folder whose loader returns pages keeps exactly those pages tagged with the entry, saves the index of their split, and the gate then depends on Ollama alone |
| EndToEnd.UpperCasePdfIndexedNotCounted | app.py:54-58 | a run over a folder holding only `Rapport.PDF` whose loader returns pages keeps exactly those pages tagged with `Rapport.PDF` and saves the index of their split, yet the documents status is `❌ Aucun PDF trouvé` and the gate depends on Ollama alone |
| EndToEnd.DocxOnlyFolder | app.py:54-58 | the same for a folder holding only `notes.Docx`: its pages, tagged with that name, are kept and their split saved, and the app can open while no PDF is reported |
| EndToEnd.LabelNamesLoadedFile | app.py:163-166 | a collected page's label is numbered by its position, holds the page's text and names the page's own `source` entry, a PDF or DOCX entry of the folder |

## Left out

- The administration page `pages/1_Admin_Ollama.py` is not part of this model. It is Streamlit UI, `ollama pull`/`rm` subprocesses, memory probes and a config-file write.
- Streamlit rendering is not modelled: the page setup, the sidebar (including the statistics block at app.py:84-101), spinners, the success banner, the slider, expanders and `st.info`. `MainScreen` keeps only what the main area ends up showing. The slider's 1..5 bound on `k` is not modelled, because `k` is passed to the search oracle unchanged.
- The environment-variable setup (app.py:8-9) and the `warnings` filter are not modelled.
- The chunking policy of `RecursiveCharacterTextSplitter` (1000/200 overlap) is not modelled. `split_documents` is an opaque function. Whether LangChain copies the page metadata into the chunks is not modelled either, so `EndToEnd.LabelNamesLoadedFile` is stated on the collected pages.
- FAISS, the HuggingFace embeddings, similarity ranking, the PDF/DOCX extraction and Ollama generation are oracles. Each one returns its value or raises.
- The build's `FAISS.from_documents` and `save_local` are one oracle that succeeds or raises. A `save_local` that writes part of the folder before failing is not modelled.
- In the app, a failure of `HuggingFaceEmbeddings` or of `FAISS.load_local` is one `Failure` of the `store` parameter, and the exception's text is a parameter.
- `Repair.Lower`: maps only A to Z. Python's `str.lower` also lower-cases other letters and can change the length (`İ` becomes two code points), so `Lower` differs from it on non-ASCII text. No non-ASCII character lower-cases into the letters of `.pdf` or `.docx`, so `Kind` still selects what Python selects.
- Paths are POSIX. On Windows `glob` matches case-insensitively and `basename` also splits at `\`; neither is modelled.
- Metadata values are the text they print as. The `page` number that PyPDF stores as an integer is a string here.
- Paths that are regular files rather than folders are not modelled, since a folder here is present with a listing or absent. A `vectorstore` file makes `rmtree` raise in the script (repair_vectorstore.py:19) and `iterdir` raise outside any `try` in the health check (app.py:48). A `documents` file makes the script's `iterdir` raise outside the per-file `try` (repair_vectorstore.py:39); the health check's `glob` finds nothing in it (app.py:54).
- `shutil.rmtree`, `mkdir` and `split_documents` never raise in the model (repair_vectorstore.py:19, 25, 67). Only the embeddings, the loaders and the build can raise.
- The per-file results exist only as printed lines (`Repair.FileLog`); the script returns no status structure, and the model invents none.
- The rebuild is not atomic: the old index is deleted first, and a failed or interrupted rebuild leaves none (`Repair.IndexOnlyFromDocuments`). Interruption partway through a step is not modelled.
- Everything `print` writes is a `Repair.Message` value rather than its French text with emoji.
