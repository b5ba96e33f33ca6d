/** The benchmark client's pure string work: how many pages the test document
    gets, how each page's text is cut into lines, and how the inference time is
    read back out of a completed result. */
module Client {
  import opened Wrappers
  import opened Text

  const WordsPerPage: int := 500

  /** `INPUT_TOKENS` when the environment does not set it. */
  const DefaultInputTokens: int := 2000

  /** Characters per line in the "dumb wrapping" of a page. */
  const LineWidth: nat := 100

  const BaseSentence: string :=
    "The quick brown fox jumps over the lazy dog and runs away to the distributed system benchmark. "

  const SentenceRepeats: nat := 35

  /** `max(1, target_tokens // words_per_page)`. Python's `//` floors and Dafny's `/`
      is Euclidean; for the positive divisor used here the two agree. */
  function TotalPages(targetTokens: int): (pages: int)
    ensures pages >= 1
    ensures targetTokens >= WordsPerPage ==>
      pages * WordsPerPage <= targetTokens < (pages + 1) * WordsPerPage
    ensures targetTokens < 2 * WordsPerPage ==> pages == 1
  {
    var q := targetTokens / WordsPerPage;
    if q >= 1 then q else 1
  }

  /** The default configuration gives four pages. */
  lemma DefaultPageCount()
    ensures TotalPages(DefaultInputTokens) == 4
  {
  }

  /** `f"PAGE {page_num} " + (base_sentence * 35)`. */
  function PageContent(pageNum: nat): string
  {
    "PAGE " + NatToString(pageNum) + " " + Repeat(BaseSentence, SentenceRepeats)
  }

  /** `[s[i:i+width] for i in range(0, len(s), width)]`, built one line at a time. */
  function Chunks(s: string, width: nat): seq<string>
    requires width > 0
    decreases |s|
  {
    if |s| == 0 then []
    else if |s| <= width then [s]
    else [s[..width]] + Chunks(s[width..], width)
  }

  /** `"".join(lines)`. */
  function Concat(lines: seq<string>): string
  {
    if |lines| == 0 then "" else lines[0] + Concat(lines[1..])
  }

  /** The lines, put back together in order, are exactly the text. */
  lemma {:induction false} ChunksConcat(s: string, width: nat)
    requires width > 0
    ensures Concat(Chunks(s, width)) == s
    decreases |s|
  {
    if |s| > width {
      ChunksConcat(s[width..], width);
      assert Chunks(s, width)[1..] == Chunks(s[width..], width);
      assert s == s[..width] + s[width..];
    } else if |s| > 0 {
      assert s + "" == s;
    }
  }

  /** Every line is non-empty and at most `width` long, and all lines but the last
      are exactly `width` long. */
  lemma {:induction false} ChunkLengths(s: string, width: nat)
    requires width > 0
    ensures forall k :: 0 <= k < |Chunks(s, width)| ==>
      0 < |Chunks(s, width)[k]| <= width
      && (k < |Chunks(s, width)| - 1 ==> |Chunks(s, width)[k]| == width)
    decreases |s|
  {
    if |s| > width {
      ChunkLengths(s[width..], width);
      var lines := Chunks(s, width);
      assert forall k :: 1 <= k < |lines| ==> lines[k] == Chunks(s[width..], width)[k - 1];
    }
  }

  /** The number of lines is the ceiling of `|s| / width`: none for empty text,
      otherwise the least count whose lines cover the text. */
  lemma {:induction false} ChunkCount(s: string, width: nat)
    requires width > 0
    ensures |Chunks(s, width)| == 0 <==> |s| == 0
    ensures |s| > 0 ==> (|Chunks(s, width)| - 1) * width < |s| <= |Chunks(s, width)| * width
    decreases |s|
  {
    if |s| > width {
      ChunkCount(s[width..], width);
      var m := |Chunks(s[width..], width)|;
      assert |Chunks(s, width)| == m + 1;
      assert (m - 1) * width == m * width - width;
      assert (m + 1) * width == m * width + width;
    }
  }

  /** Line `k` is the slice the comprehension takes at start index `k * width`. */
  lemma {:induction false} ChunkAt(s: string, width: nat, k: nat)
    requires width > 0
    requires k < |Chunks(s, width)|
    ensures k * width < |s|
    ensures Chunks(s, width)[k] == s[k * width .. Min((k + 1) * width, |s|)]
    decreases |s|
  {
    if k > 0 {
      var rest := s[width..];
      assert Chunks(s, width)[k] == Chunks(rest, width)[k - 1];
      ChunkAt(rest, width, k - 1);
      MulStep(k, width);
      var lo, hi := (k - 1) * width, Min(k * width, |rest|);
      assert width + lo == k * width;
      assert width + hi == Min((k + 1) * width, |s|);
      SliceOfSuffix(s, width, lo, hi);
    }
  }

  lemma SliceOfSuffix(s: string, d: nat, lo: nat, hi: nat)
    requires d + hi <= |s| && lo <= hi
    ensures s[d..][lo..hi] == s[d + lo..d + hi]
  {
  }

  lemma MulStep(k: nat, width: nat)
    requires k > 0
    ensures (k - 1) * width + width == k * width
    ensures k * width + width == (k + 1) * width
  {
  }

  /** Every page is cut into at least one line, and its lines rebuild the page. */
  lemma PageLines(pageNum: nat)
    ensures |Chunks(PageContent(pageNum), LineWidth)| >= 1
    ensures Concat(Chunks(PageContent(pageNum), LineWidth)) == PageContent(pageNum)
  {
    assert |PageContent(pageNum)| > 0;
    ChunkCount(PageContent(pageNum), LineWidth);
    ChunksConcat(PageContent(pageNum), LineWidth);
  }

  /** `result_text.split("|")[0].split(":")[1].strip().replace("s", "")`: the text
      between the first and second `:` of the part before the first `|`, stripped,
      with every `s` removed. `None` is the `IndexError` the bare `except` turns
      into printing the raw result. */
  function ParseInferenceTime(resultText: string): (time: Option<string>)
    ensures time.Some? <==> ':' in Split(resultText, '|')[0]
    ensures time.Some? ==> 's' !in time.value
  {
    var fields := Split(Split(resultText, '|')[0], ':');
    if |fields| < 2 then None else Some(RemoveAll(Strip(fields[1]), 's'))
  }
}
