/** The question-answering app: the configured model name, the health checks, the
    readiness gate, and the context, prompt and source labels built from the chunks
    the retriever returns. Streamlit, FAISS, the embeddings and Ollama are oracles. */
module App {
  import opened Common

  // ---------------------------------------------------------------------------
  // Configured model
  // ---------------------------------------------------------------------------

  const DefaultModel := "tinyllama"

  /** Python's `str.isspace()`. */
  predicate IsSpace(c: char)
  {
    ('\U{9}' <= c <= '\U{D}') || ('\U{1C}' <= c <= '\U{20}') || c == '\U{85}' || c == '\U{A0}' ||
    c == '\U{1680}' || ('\U{2000}' <= c <= '\U{200A}') || c == '\U{2028}' || c == '\U{2029}' ||
    c == '\U{202F}' || c == '\U{205F}' || c == '\U{3000}'
  }

  predicate AllSpace(s: string)
  {
    forall i :: 0 <= i < |s| ==> IsSpace(s[i])
  }

  /** The length of the whitespace run that starts `s`. */
  function LeadingSpace(s: string): (n: nat)
    ensures n <= |s|
    ensures forall i :: 0 <= i < n ==> IsSpace(s[i])
    ensures n < |s| ==> !IsSpace(s[n])
  {
    if s != [] && IsSpace(s[0]) then 1 + LeadingSpace(s[1..]) else 0
  }

  /** The length of the whitespace run that ends `s`. */
  function TrailingSpace(s: string): (n: nat)
    ensures n <= |s|
    ensures forall i :: |s| - n <= i < |s| ==> IsSpace(s[i])
    ensures n < |s| ==> !IsSpace(s[|s| - 1 - n])
  {
    if s != [] && IsSpace(s[|s| - 1]) then 1 + TrailingSpace(s[..|s| - 1]) else 0
  }

  /** `r` is `s` without the whitespace around it. */
  predicate Trimmed(s: string, r: string)
  {
    var a := LeadingSpace(s);
    a + |r| <= |s| && s[a..a + |r|] == r && AllSpace(s[..a]) && AllSpace(s[a + |r|..]) &&
    (r == [] || (!IsSpace(r[0]) && !IsSpace(r[|r| - 1])))
  }

  /** Python's `str.strip()`. */
  function Strip(s: string): (r: string)
    ensures Trimmed(s, r)
  {
    var a := LeadingSpace(s);
    var t := s[a..];
    var n := TrailingSpace(t);
    assert t != [] ==> n < |t|;
    t[..|t| - n]
  }

  lemma {:induction false} LeadingSpaceIs(s: string, n: nat)
    requires n <= |s| && AllSpace(s[..n]) && (n < |s| ==> !IsSpace(s[n]))
    ensures LeadingSpace(s) == n
  {
    if n > 0 {
      assert IsSpace(s[..n][0]);
      LeadingSpaceIs(s[1..], n - 1);
    }
  }

  lemma {:induction false} TrailingSpaceIs(s: string, n: nat)
    requires n <= |s| && AllSpace(s[|s| - n..]) && (n < |s| ==> !IsSpace(s[|s| - 1 - n]))
    ensures TrailingSpace(s) == n
  {
    if n > 0 {
      assert IsSpace(s[|s| - n..][n - 1]);
      var init := s[..|s| - 1];
      assert init[|init| - (n - 1)..] == s[|s| - n..|s| - 1];
      TrailingSpaceIs(init, n - 1);
    }
  }

  /** Whatever whitespace surrounds a text, `strip` gives back exactly that text. */
  lemma StripCharacterization(w1: string, t: string, w2: string)
    requires AllSpace(w1) && AllSpace(w2)
    requires t == [] || (!IsSpace(t[0]) && !IsSpace(t[|t| - 1]))
    ensures Strip(w1 + t + w2) == t
  {
    var s := w1 + t + w2;
    if t == [] {
      assert s == w1 + w2;
      assert AllSpace(s[..|s|]) by {
        forall i | 0 <= i < |s| ensures IsSpace(s[..|s|][i]) {
          if i < |w1| { assert s[i] == w1[i]; } else { assert s[i] == w2[i - |w1|]; }
        }
      }
      LeadingSpaceIs(s, |s|);
    } else {
      assert s[..|w1|] == w1;
      assert s[|w1|] == t[0];
      LeadingSpaceIs(s, |w1|);
      var u := s[|w1|..];
      assert u == t + w2;
      assert u[|u| - |w2|..] == w2;
      assert u[|u| - 1 - |w2|] == t[|t| - 1];
      TrailingSpaceIs(u, |w2|);
      assert u[..|u| - |w2|] == t;
    }
  }

  /** `get_model_choice()`: `config` is the content of the configuration file, or
      `None` when reading it raised. */
  function ModelChoice(config: Option<string>): (r: string)
    ensures config.None? ==> r == DefaultModel
    ensures config.Some? ==> Trimmed(config.value, r)
  {
    match config
    case None => DefaultModel
    case Some(text) => Strip(text)
  }

  lemma StripIdempotent(s: string)
    ensures Strip(Strip(s)) == Strip(s)
  {
    var t := Strip(s);
    if t != [] {
      LeadingSpaceIs(t, 0);
      assert t[0..] == t;
      TrailingSpaceIs(t, 0);
      assert t[..|t|] == t;
    }
  }

  /** A configured name padded with spaces and a newline selects that name. */
  lemma ModelChoiceIgnoresPadding(name: string, pad: string)
    requires name == [] || (!IsSpace(name[0]) && !IsSpace(name[|name| - 1]))
    requires AllSpace(pad)
    ensures ModelChoice(Some(pad + name + "\n")) == name
  {
    StripCharacterization(pad, name, "\n");
  }

  // ---------------------------------------------------------------------------
  // Health checks
  // ---------------------------------------------------------------------------

  const OllamaConnected := "✅ Connecté"
  const ErrorPrefix := "❌ Erreur: "
  const VectorstoreFound := "✅ Trouvée"
  const VectorstoreMissing := "❌ Manquante"
  const NoPdfFound := "❌ Aucun PDF trouvé"
  const PdfFoundPrefix := "✅ "
  const PdfFoundSuffix := " PDF(s) trouvé(s)"

  /** What `ollama.list()` gives: the model records, or the exception it raised. */
  datatype ListReply = ListRaised(error: string) | Listed(models: seq<map<string, string>>)

  /** The `'ollama'` entry of the health dictionary. */
  datatype OllamaInfo = OllamaInfo(status: string, models: seq<string>)

  /** A value of the health dictionary: a status text, or the Ollama entry. */
  datatype HealthValue = Text(text: string) | Ollama(info: OllamaInfo)

  predicate AllNamed(models: seq<map<string, string>>)
  {
    forall i :: 0 <= i < |models| ==> "name" in models[i]
  }

  function ModelNames(models: seq<map<string, string>>): (r: seq<string>)
    requires AllNamed(models)
    ensures |r| == |models|
  {
    seq(|models|, i requires 0 <= i < |models| && AllNamed(models) => models[i]["name"])
  }

  /** The `try` that asks Ollama for its models; a record without `name` raises
      `KeyError('name')`, whose text is `'name'`. */
  function OllamaHealth(reply: ListReply): (h: OllamaInfo)
    ensures h.status == OllamaConnected <==> reply.Listed? && AllNamed(reply.models)
    ensures h.status == OllamaConnected ==>
      |h.models| == |reply.models| && forall i :: 0 <= i < |h.models| ==> h.models[i] == reply.models[i]["name"]
    ensures h.status != OllamaConnected ==> h.models == []
    ensures reply.ListRaised? ==> h.status == ErrorPrefix + reply.error
    ensures reply.Listed? && !AllNamed(reply.models) ==> h.status == ErrorPrefix + "'name'"
  {
    match reply
    case ListRaised(e) =>
      assert (ErrorPrefix + e)[0] != OllamaConnected[0];
      OllamaInfo(ErrorPrefix + e, [])
    case Listed(models) =>
      if AllNamed(models) then OllamaInfo(OllamaConnected, ModelNames(models))
      else
        assert (ErrorPrefix + "'name'")[0] != OllamaConnected[0];
        OllamaInfo(ErrorPrefix + "'name'", [])
  }

  /** The vector-store check; `dir` lists the folder, `None` if it does not exist. */
  function VectorstoreStatus(dir: Option<seq<string>>): (s: string)
    ensures s == VectorstoreFound <==> dir.Some? && dir.value != []
    ensures s == VectorstoreFound || s == VectorstoreMissing
  {
    if dir.Some? && dir.value != [] then VectorstoreFound else VectorstoreMissing
  }

  /** An entry `glob("*.pdf")` yields: its name ends in `.pdf`, in lower case. */
  predicate MatchesPdfGlob(name: string)
  {
    |name| >= 4 && name[|name| - 4..] == ".pdf"
  }

  /** `*` matches any stem, the empty one included: an entry matches iff it is some
      text followed by `.pdf`. */
  lemma PdfGlobStem(name: string)
    ensures MatchesPdfGlob(name) <==> exists stem :: name == stem + ".pdf"
  {
    if |name| >= 4 {
      assert name == name[..|name| - 4] + name[|name| - 4..];
    }
    if stem :| name == stem + ".pdf" {
      assert name[|name| - 4..] == ".pdf";
    }
  }

  /** `len(list(DOCUMENTS_DIR.glob("*.pdf")))`. */
  function PdfCount(entries: seq<string>): (n: nat)
    ensures n <= |entries|
    ensures n == 0 <==> forall i :: 0 <= i < |entries| ==> !MatchesPdfGlob(entries[i])
  {
    if entries == [] then 0
    else PdfCount(entries[..|entries| - 1]) + (if MatchesPdfGlob(entries[|entries| - 1]) then 1 else 0)
  }

  /** The positions of the entries `glob("*.pdf")` yields. */
  function PdfMatches(entries: seq<string>): set<int>
  {
    set i | 0 <= i < |entries| && MatchesPdfGlob(entries[i])
  }

  /** The count is the number of entries that match `*.pdf`. */
  lemma {:induction false} PdfCountMatches(entries: seq<string>)
    ensures PdfCount(entries) == |PdfMatches(entries)|
  {
    if entries != [] {
      var init := entries[..|entries| - 1];
      var last := |entries| - 1;
      PdfCountMatches(init);
      var a, b := PdfMatches(init), PdfMatches(entries);
      assert forall i :: i in b <==> i in a || (i == last && MatchesPdfGlob(entries[last])) by {
        forall i ensures i in b <==> i in a || (i == last && MatchesPdfGlob(entries[last])) {
          if 0 <= i < last { assert init[i] == entries[i]; }
        }
      }
      if MatchesPdfGlob(entries[last]) {
        assert b == a + {last};
      } else {
        assert b == a;
      }
    }
  }

  /** The documents check. */
  function DocumentsStatus(dir: Option<seq<string>>): (s: string)
    ensures s == NoPdfFound <==> dir.None? || PdfCount(dir.value) == 0
  {
    if dir.Some? && PdfCount(dir.value) > 0 then PdfFoundPrefix + Decimal(PdfCount(dir.value)) + PdfFoundSuffix
    else NoPdfFound
  }

  /** The number in the documents status is the number of `*.pdf` entries. */
  lemma DocumentsStatusCount(dir: Option<seq<string>>)
    requires DocumentsStatus(dir) != NoPdfFound
    ensures var s := DocumentsStatus(dir);
      |PdfFoundPrefix| + |PdfFoundSuffix| < |s| &&
      s[..|PdfFoundPrefix|] == PdfFoundPrefix && s[|s| - |PdfFoundSuffix|..] == PdfFoundSuffix &&
      s[|PdfFoundPrefix|..|s| - |PdfFoundSuffix|] == Decimal(|PdfMatches(dir.value)|) &&
      DecimalValue(s[|PdfFoundPrefix|..|s| - |PdfFoundSuffix|]) == |PdfMatches(dir.value)|
  {
    PdfCountMatches(dir.value);
    var s := DocumentsStatus(dir);
    var d := Decimal(PdfCount(dir.value));
    assert s == PdfFoundPrefix + d + PdfFoundSuffix;
    assert s[|PdfFoundPrefix|..|s| - |PdfFoundSuffix|] == d;
    DecimalRoundTrip(PdfCount(dir.value));
  }

  /** `check_system_health()` as a value. */
  function Health(reply: ListReply, vectorstoreDir: Option<seq<string>>, documentsDir: Option<seq<string>>): (h: map<string, HealthValue>)
    ensures h.Keys == {"ollama", "vectorstore", "documents"}
    ensures h["ollama"] == Ollama(OllamaHealth(reply))
    ensures h["vectorstore"] == Text(VectorstoreStatus(vectorstoreDir))
    ensures h["documents"] == Text(DocumentsStatus(documentsDir))
  {
    map["ollama" := Ollama(OllamaHealth(reply)),
        "vectorstore" := Text(VectorstoreStatus(vectorstoreDir)),
        "documents" := Text(DocumentsStatus(documentsDir))]
  }

  /** `check_system_health()`: fills the dictionary one key at a time. */
  method CheckSystemHealth(reply: ListReply, vectorstoreDir: Option<seq<string>>, documentsDir: Option<seq<string>>)
    returns (health: map<string, HealthValue>)
    ensures health == Health(reply, vectorstoreDir, documentsDir)
  {
    health := map[];
    health := health["ollama" := Ollama(OllamaHealth(reply))];
    if vectorstoreDir.Some? && vectorstoreDir.value != [] {
      health := health["vectorstore" := Text(VectorstoreFound)];
    } else {
      health := health["vectorstore" := Text(VectorstoreMissing)];
    }
    if documentsDir.Some? && PdfCount(documentsDir.value) > 0 {
      var pdfCount := PdfCount(documentsDir.value);
      health := health["documents" := Text(PdfFoundPrefix + Decimal(pdfCount) + PdfFoundSuffix)];
    } else {
      health := health["documents" := Text(NoPdfFound)];
    }
    assert health["vectorstore"] == Text(VectorstoreStatus(vectorstoreDir));
    assert health["documents"] == Text(DocumentsStatus(documentsDir));
  }

  // ---------------------------------------------------------------------------
  // Readiness gate
  // ---------------------------------------------------------------------------

  /** The condition in `main` that opens the question interface. */
  predicate SystemReady(health: map<string, HealthValue>)
    requires "vectorstore" in health && "ollama" in health && health["ollama"].Ollama?
  {
    health["vectorstore"] == Text(VectorstoreFound) && health["ollama"].info.status == OllamaConnected
  }

  /** The interface opens exactly when the vector-store folder is non-empty and
      Ollama listed its models. */
  lemma ReadyIff(reply: ListReply, vectorstoreDir: Option<seq<string>>, documentsDir: Option<seq<string>>)
    ensures var h := Health(reply, vectorstoreDir, documentsDir);
      SystemReady(h) <==>
        vectorstoreDir.Some? && vectorstoreDir.value != [] && reply.Listed? && AllNamed(reply.models)
  {
  }

  // ---------------------------------------------------------------------------
  // Context, prompt and sources
  // ---------------------------------------------------------------------------

  lemma Slices<T>(a: seq<T>, b: seq<T>, c: seq<T>)
    ensures (a + b + c)[..|a|] == a && (a + b + c)[|a|..|a| + |b|] == b && (a + b + c)[|a| + |b|..] == c
  {
  }

  const ChunkSeparator := "\n\n"

  /** `sep.join(xs)`. */
  function Join(xs: seq<string>, sep: string): string
  {
    if xs == [] then ""
    else if |xs| == 1 then xs[0]
    else Join(xs[..|xs| - 1], sep) + sep + xs[|xs| - 1]
  }

  lemma {:induction false} JoinSplit(xs: seq<string>, sep: string, i: int)
    requires 0 < i < |xs|
    ensures Join(xs, sep) == Join(xs[..i], sep) + sep + Join(xs[i..], sep)
  {
    var init := xs[..|xs| - 1];
    if i == |xs| - 1 {
      assert xs[i..] == [xs[i]];
    } else {
      JoinSplit(init, sep, i);
      assert init[..i] == xs[..i];
      var rest := xs[i..];
      assert rest[..|rest| - 1] == init[i..];
      assert Join(rest, sep) == Join(init[i..], sep) + sep + xs[|xs| - 1];
    }
  }

  /** Where element `i` starts in `Join(xs, sep)`. */
  function JoinOffset(xs: seq<string>, sep: string, i: int): nat
    requires 0 <= i <= |xs|
  {
    if i == 0 then 0 else |Join(xs[..i], sep)| + |sep|
  }

  /** The join of the first `i + 1` elements ends with element `i`, after the
      join of the ones before it and a separator. */
  lemma JoinPrefix(xs: seq<string>, sep: string, i: int)
    requires 0 <= i < |xs|
    ensures Join(xs[..i + 1], sep) == (if i == 0 then "" else Join(xs[..i], sep) + sep) + xs[i]
  {
    assert xs[..i + 1][..i] == xs[..i];
  }

  /** The join of the first `i + 1` elements ends with element `i`, which starts at its offset. */
  lemma JoinPrefixEnds(xs: seq<string>, sep: string, i: int)
    requires 0 <= i < |xs|
    ensures var h := Join(xs[..i + 1], sep); var o := JoinOffset(xs, sep, i);
      |h| == o + |xs[i]| && h[o..] == xs[i]
  {
    JoinPrefix(xs, sep, i);
  }

  /** Element `i` sits at its offset, and nothing follows the last element. */
  lemma JoinAt(xs: seq<string>, sep: string, i: int)
    requires 0 <= i < |xs|
    ensures var j := Join(xs, sep); var o := JoinOffset(xs, sep, i);
      o + |xs[i]| <= |j| && j[o..o + |xs[i]|] == xs[i] && (i + 1 == |xs| ==> o + |xs[i]| == |j|)
  {
    var head := Join(xs[..i + 1], sep);
    var o := JoinOffset(xs, sep, i);
    JoinPrefixEnds(xs, sep, i);
    if i + 1 < |xs| {
      JoinSplit(xs, sep, i + 1);
      PrefixSlice(head, sep + Join(xs[i + 1..], sep), o);
    } else {
      assert xs[..i + 1] == xs;
      PrefixSlice(head, [], o);
    }
  }

  lemma PrefixSlice<T>(a: seq<T>, b: seq<T>, o: int)
    requires 0 <= o <= |a|
    ensures (a + b)[o..|a|] == a[o..]
  {
  }

  /** Between element `i` and element `i + 1` there is exactly one separator. */
  lemma JoinGap(xs: seq<string>, sep: string, i: int)
    requires 0 <= i < |xs| - 1
    ensures var j := Join(xs, sep); var e := JoinOffset(xs, sep, i) + |xs[i]|;
      JoinOffset(xs, sep, i + 1) == e + |sep| && e + |sep| <= |j| && j[e..e + |sep|] == sep
  {
    var pre := if i == 0 then "" else Join(xs[..i], sep) + sep;
    var head := Join(xs[..i + 1], sep);
    JoinPrefix(xs, sep, i);
    var rest := Join(xs[i + 1..], sep);
    JoinSplit(xs, sep, i + 1);
    Slices(head, sep, rest);
  }

  function PageContents(docs: seq<Document>): (r: seq<string>)
    ensures |r| == |docs|
  {
    seq(|docs|, i requires 0 <= i < |docs| => docs[i].pageContent)
  }

  /** `"\n\n".join([doc.page_content for doc in docs])`. */
  function Context(docs: seq<Document>): string
  {
    Join(PageContents(docs), ChunkSeparator)
  }

  /** The chunks appear in the context in retrieval order, each followed by a blank
      line except the last, and nothing else is in it. */
  lemma ContextLayout(docs: seq<Document>, i: int)
    requires 0 <= i < |docs|
    ensures var c := Context(docs); var xs := PageContents(docs);
      var o := JoinOffset(xs, ChunkSeparator, i); var n := |docs[i].pageContent|;
      o + n <= |c| && c[o..o + n] == docs[i].pageContent &&
      (i + 1 < |docs| ==> JoinOffset(xs, ChunkSeparator, i + 1) == o + n + 2 && o + n + 2 <= |c| && c[o + n..o + n + 2] == "\n\n") &&
      (i + 1 == |docs| ==> o + n == |c|)
  {
    JoinAt(PageContents(docs), ChunkSeparator, i);
    if i + 1 < |docs| {
      JoinGap(PageContents(docs), ChunkSeparator, i);
    }
  }

  /** The context is empty exactly when nothing was retrieved, or one empty chunk was. */
  lemma ContextEmpty(docs: seq<Document>)
    ensures Context(docs) == "" <==> docs == [] || (|docs| == 1 && docs[0].pageContent == "")
  {
    if |docs| >= 2 {
      JoinGap(PageContents(docs), ChunkSeparator, 0);
    }
  }

  const PromptHead := "Réponds à cette question en français en utilisant le contexte suivant:\n\nCONTEXTE:\n"
  const QuestionLabel := "\n\nQUESTION: "
  const AnswerLabel := "\n\nRÉPONSE:"

  /** The f-string prompt. */
  function Prompt(context: string, query: string): string
  {
    PromptHead + context + QuestionLabel + query + AnswerLabel
  }

  /** The prompt is the instruction and `CONTEXTE:` line, the context, `QUESTION: `
      and the query, then `RÉPONSE:`, in that order and nothing more. */
  lemma PromptLayout(context: string, query: string)
    ensures var p := Prompt(context, query);
      var c0 := |PromptHead|; var q0 := c0 + |context| + |QuestionLabel|;
      |p| == q0 + |query| + |AnswerLabel| &&
      p[..c0] == PromptHead && p[c0..c0 + |context|] == context &&
      p[c0 + |context|..q0] == QuestionLabel && p[q0..q0 + |query|] == query &&
      p[q0 + |query|..] == AnswerLabel
  {
  }

  /** Two prompts with contexts of one length are equal only for the same context and query. */
  lemma PromptInjective(c1: string, q1: string, c2: string, q2: string)
    requires |c1| == |c2| && Prompt(c1, q1) == Prompt(c2, q2)
    ensures c1 == c2 && q1 == q2
  {
    PromptLayout(c1, q1);
    PromptLayout(c2, q2);
  }

  const UnknownSource := "Inconnu"
  const NoPage := "N/A"

  /** `os.path.basename` on a POSIX path: what follows the last `/`. */
  function Basename(path: string): (r: string)
    ensures |r| <= |path| && path[|path| - |r|..] == r
    ensures forall i :: 0 <= i < |r| ==> r[i] != '/'
    ensures |r| < |path| ==> path[|path| - |r| - 1] == '/'
  {
    path[LastIndexOf(path, '/') + 1..]
  }

  /** `m.get(key, default)`. */
  function MetaOr(m: map<string, string>, key: string, default: string): string
  {
    if key in m then m[key] else default
  }

  /** One expander of the sources list. */
  datatype SourceLabel = SourceLabel(number: nat, file: string, page: string, content: string)

  const HeadingPrefix := "Source "

  /** The expander title. */
  function Heading(l: SourceLabel): (h: string)
    ensures |h| >= |HeadingPrefix| + 3 + |l.file|
    ensures h[..|HeadingPrefix|] == HeadingPrefix && h[|h| - |l.file|..] == l.file
  {
    HeadingPrefix + Decimal(l.number) + (": " + l.file)
  }

  /** The sources list, `enumerate(docs)` numbered from 1. */
  function SourceLabels(docs: seq<Document>): (r: seq<SourceLabel>)
    ensures |r| == |docs|
  {
    seq(|docs|, i requires 0 <= i < |docs| =>
      SourceLabel(i + 1, Basename(MetaOr(docs[i].metadata, SourceKey, UnknownSource)),
                  MetaOr(docs[i].metadata, PageKey, NoPage), docs[i].pageContent))
  }

  /** A name without `/` is its own basename. */
  lemma BasenameOfPlainName(p: string)
    requires forall j :: 0 <= j < |p| ==> p[j] != '/'
    ensures Basename(p) == p
  {
    assert LastIndexOf(p, '/') == -1;
    assert p[0..] == p;
  }

  /** Label `i` has number `i + 1`, names the basename of its chunk's source (or
      `Inconnu`), its page (or `N/A`) and the chunk's text. */
  lemma SourceLabelAt(docs: seq<Document>, i: int)
    requires 0 <= i < |docs|
    ensures var l := SourceLabels(docs)[i]; var m := docs[i].metadata;
      l.number == i + 1 && l.content == docs[i].pageContent &&
      (SourceKey !in m ==> l.file == UnknownSource) &&
      (SourceKey in m ==> l.file == Basename(m[SourceKey])) &&
      (PageKey in m ==> l.page == m[PageKey]) && (PageKey !in m ==> l.page == NoPage)
  {
    UnknownSourceIsPlain();
  }

  /** `Inconnu` holds no `/`, so it is printed as it is. */
  lemma UnknownSourceIsPlain()
    ensures Basename(UnknownSource) == UnknownSource
  {
    assert forall j :: 0 <= j < |UnknownSource| ==> UnknownSource[j] != '/';
    BasenameOfPlainName(UnknownSource);
  }

  /** A source without `/`, such as the file name the rebuild script stores, is shown as it is. */
  lemma PlainSourceShown(docs: seq<Document>, i: int)
    requires 0 <= i < |docs| && SourceKey in docs[i].metadata
    requires forall j :: 0 <= j < |docs[i].metadata[SourceKey]| ==> docs[i].metadata[SourceKey][j] != '/'
    ensures SourceLabels(docs)[i].file == docs[i].metadata[SourceKey]
  {
    SourceLabelAt(docs, i);
    BasenameOfPlainName(docs[i].metadata[SourceKey]);
  }

  /** The number in each heading reads back as the label's position plus one. */
  lemma HeadingNumber(docs: seq<Document>, i: int)
    requires 0 <= i < |docs|
    ensures var h := Heading(SourceLabels(docs)[i]); var d := |Decimal(i + 1)|; var n := |HeadingPrefix|;
      n + d <= |h| && h[..n] == HeadingPrefix && h[n..n + d] == Decimal(i + 1) &&
      DecimalValue(h[n..n + d]) == i + 1 && h[n + d..] == ": " + SourceLabels(docs)[i].file
  {
    var l := SourceLabels(docs)[i];
    assert l.number == i + 1;
    Slices(HeadingPrefix, Decimal(i + 1), ": " + l.file);
    DecimalRoundTrip(i + 1);
  }

  // ---------------------------------------------------------------------------
  // The main interface
  // ---------------------------------------------------------------------------

  /** The loaded FAISS store; `similarity_search(query, k)` returns chunks or raises. */
  datatype Store = Store(search: (string, nat) -> Result<seq<Document>>)

  /** What the main area ends up showing. */
  datatype Screen =
    | NotReady
    | AwaitingQuestion(model: string)
    | Answered(model: string, prompt: string, answer: string, sources: seq<SourceLabel>)
    | ErrorShown(message: string)

  /** The main area of `main()`: `store` is `FAISS.load_local(...)` (or what it
      raised), `generate(model, prompt)` is `Ollama(model=model).invoke(prompt)`. */
  function MainScreen(health: map<string, HealthValue>, store: Result<Store>, config: Option<string>,
                      query: string, k: nat, generate: (string, string) -> Result<string>): Screen
    requires "vectorstore" in health && "ollama" in health && health["ollama"].Ollama?
  {
    if !SystemReady(health) then NotReady
    else match store
      case Failure(e) => ErrorShown(ErrorPrefix + e)
      case Ok(s) =>
        var model := ModelChoice(config);
        if query == "" then AwaitingQuestion(model)
        else match s.search(query, k)
          case Failure(e) => ErrorShown(ErrorPrefix + e)
          case Ok(docs) =>
            var prompt := Prompt(Context(docs), query);
            match generate(model, prompt)
            case Failure(e) => ErrorShown(ErrorPrefix + e)
            case Ok(answer) => Answered(model, prompt, answer, SourceLabels(docs))
  }

  /** Retrieval and generation happen only behind the gate; behind it, the answer
      uses the retrieved chunks for both the prompt and the sources. */
  lemma AnswerOnlyWhenReady(reply: ListReply, vectorstoreDir: Option<seq<string>>, documentsDir: Option<seq<string>>,
                            store: Result<Store>, config: Option<string>, query: string, k: nat,
                            generate: (string, string) -> Result<string>)
    ensures var s := MainScreen(Health(reply, vectorstoreDir, documentsDir), store, config, query, k, generate);
      (s.NotReady? <==> !(vectorstoreDir.Some? && vectorstoreDir.value != [] && reply.Listed? && AllNamed(reply.models))) &&
      (s.Answered? ==>
        query != "" && store.Ok? && store.value.search(query, k).Ok? &&
        var docs := store.value.search(query, k).value;
        s.model == ModelChoice(config) && s.prompt == Prompt(Context(docs), query) &&
        s.sources == SourceLabels(docs) && generate(s.model, s.prompt) == Ok(s.answer))
  {
    ReadyIff(reply, vectorstoreDir, documentsDir);
  }

  /** Behind an open gate the main area is fixed by what the calls return: an error
      for a store that did not load, a search or a generation that raised, the bare
      question box for an empty query, and otherwise the answer with its sources. */
  lemma MainScreenWhenReady(health: map<string, HealthValue>, store: Result<Store>, config: Option<string>,
                            query: string, k: nat, generate: (string, string) -> Result<string>)
    requires "vectorstore" in health && "ollama" in health && health["ollama"].Ollama?
    requires SystemReady(health)
    ensures var s := MainScreen(health, store, config, query, k, generate); var model := ModelChoice(config);
      (store.Failure? ==> s == ErrorShown(ErrorPrefix + store.error)) &&
      (store.Ok? && query == "" ==> s == AwaitingQuestion(model)) &&
      (store.Ok? && query != "" && store.value.search(query, k).Failure? ==>
        s == ErrorShown(ErrorPrefix + store.value.search(query, k).error)) &&
      (store.Ok? && query != "" && store.value.search(query, k).Ok? ==>
        var docs := store.value.search(query, k).value; var p := Prompt(Context(docs), query);
        (generate(model, p).Failure? ==> s == ErrorShown(ErrorPrefix + generate(model, p).error)) &&
        (generate(model, p).Ok? ==> s == Answered(model, p, generate(model, p).value, SourceLabels(docs))))
  {
  }
}
