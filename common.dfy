/** Values shared by the index-rebuild script and the question-answering app. */
module Common {

  datatype Option<T> = None | Some(value: T)

  /** The value of a call that either returns or raises; `error` is the exception's text. */
  datatype Result<T> = Ok(value: T) | Failure(error: string)

  /** A LangChain document: the page text and its metadata dictionary.
      Metadata values are held as the text they print as. */
  datatype Document = Document(pageContent: string, metadata: map<string, string>)

  const SourceKey := "source"
  const PageKey := "page"

  /** The sentence-transformer both the script and the app load. */
  const EmbeddingModel := "sentence-transformers/all-MiniLM-L6-v2"

  /** The position of the last `c` in `s`, or -1 (Python's `str.rfind`). */
  function LastIndexOf(s: string, c: char): (r: int)
    ensures -1 <= r < |s|
    ensures r >= 0 ==> s[r] == c
    ensures forall j :: r < j < |s| ==> s[j] != c
  {
    if s == [] then -1
    else if s[|s| - 1] == c then |s| - 1
    else LastIndexOf(s[..|s| - 1], c)
  }

  function DigitChar(d: nat): (c: char)
    requires d < 10
    ensures '0' <= c <= '9'
  {
    (('0' as int) + d) as char
  }

  function DigitValue(c: char): nat
  {
    if '0' <= c <= '9' then (c as int) - ('0' as int) else 0
  }

  /** The decimal text of `n`, as Python's `str(n)` and f-strings print it. */
  function Decimal(n: nat): (s: string)
    ensures |s| >= 1
    ensures forall i :: 0 <= i < |s| ==> '0' <= s[i] <= '9'
    ensures |s| > 1 ==> s[0] != '0'
  {
    if n < 10 then [DigitChar(n)] else Decimal(n / 10) + [DigitChar(n % 10)]
  }

  /** Reads a run of decimal digits back as a number. */
  function DecimalValue(s: string): nat
  {
    if s == [] then 0 else 10 * DecimalValue(s[..|s| - 1]) + DigitValue(s[|s| - 1])
  }

  lemma {:induction false} DecimalRoundTrip(n: nat)
    ensures DecimalValue(Decimal(n)) == n
  {
    if n >= 10 {
      DecimalRoundTrip(n / 10);
      var s := Decimal(n);
      assert s[..|s| - 1] == Decimal(n / 10);
    }
  }

  /** The lists `f(x)` for the elements `x` of `xs`, concatenated in order. */
  function ConcatMap<A, B>(xs: seq<A>, f: A -> seq<B>): seq<B>
  {
    if xs == [] then [] else ConcatMap(xs[..|xs| - 1], f) + f(xs[|xs| - 1])
  }

  lemma {:induction false} ConcatMapAppend<A, B>(a: seq<A>, b: seq<A>, f: A -> seq<B>)
    ensures ConcatMap(a + b, f) == ConcatMap(a, f) + ConcatMap(b, f)
  {
    if b == [] {
      assert a + b == a;
    } else {
      var b' := b[..|b| - 1];
      assert (a + b)[..|a + b| - 1] == a + b';
      ConcatMapAppend(a, b', f);
    }
  }

  lemma ConcatMapAround<A, B>(xs: seq<A>, j: int, f: A -> seq<B>)
    requires 0 <= j < |xs|
    ensures ConcatMap(xs, f) == ConcatMap(xs[..j], f) + f(xs[j]) + ConcatMap(xs[j + 1..], f)
  {
    assert xs == xs[..j + 1] + xs[j + 1..];
    ConcatMapAppend(xs[..j + 1], xs[j + 1..], f);
    ConcatMapStep(xs, j, f);
  }

  lemma ConcatMapStep<A, B>(xs: seq<A>, i: int, f: A -> seq<B>)
    requires 0 <= i < |xs|
    ensures ConcatMap(xs[..i + 1], f) == ConcatMap(xs[..i], f) + f(xs[i])
  {
    assert xs[..i + 1][..i] == xs[..i];
  }

  /** Each element of the concatenation is some element of some `f(xs[i])`. */
  lemma {:induction false} ConcatMapOrigin<A, B>(xs: seq<A>, f: A -> seq<B>, k: int) returns (i: int, m: int)
    requires 0 <= k < |ConcatMap(xs, f)|
    ensures 0 <= i < |xs| && 0 <= m < |f(xs[i])| && ConcatMap(xs, f)[k] == f(xs[i])[m]
  {
    var init := xs[..|xs| - 1];
    var c := ConcatMap(init, f);
    if k < |c| {
      i, m := ConcatMapOrigin(init, f, k);
      assert init[i] == xs[i];
    } else {
      i, m := |xs| - 1, k - |c|;
    }
  }
}
