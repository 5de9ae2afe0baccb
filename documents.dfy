/**
  Retrieved documents and `format_docs`, which turns the reranked documents
  into the single context string handed to the answer prompt.
*/
module Documents {
  import opened Text

  /**
    A LangChain `Document`. The reranker adds a relevance score to the
    metadata; `format_docs` reads only the page content.
  */
  datatype Doc = Doc(pageContent: string, metadata: map<string, string>)

  /** The separator `format_docs` puts between two passages. */
  const Separator: string := "\n\n"

  /** The page contents of `docs`, in order. */
  function PageContents(docs: seq<Doc>): (cs: seq<string>)
    ensures |cs| == |docs|
    ensures forall i :: 0 <= i < |docs| ==> cs[i] == docs[i].pageContent
  {
    if docs == [] then [] else [docs[0].pageContent] + PageContents(docs[1..])
  }

  /** `format_docs(docs)`: `"\n\n".join(doc.page_content for doc in docs)`. */
  function FormatDocs(docs: seq<Doc>): string {
    Join(PageContents(docs), Separator)
  }

  /** No documents give the empty context; one document gives its content alone. */
  lemma FormatDocsEmptyAndSingle(d: Doc)
    ensures FormatDocs([]) == ""
    ensures FormatDocs([d]) == d.pageContent
  {
  }

  /** Formatting keeps the order: the documents of `a` come first, then one separator, then those of `b`. */
  lemma FormatDocsAppend(a: seq<Doc>, b: seq<Doc>)
    requires |a| > 0 && |b| > 0
    ensures FormatDocs(a + b) == FormatDocs(a) + Separator + FormatDocs(b)
  {
    assert PageContents(a + b) == PageContents(a) + PageContents(b);
    JoinAppend(PageContents(a), PageContents(b), Separator);
  }

  /** The context is exactly the passages plus two characters between each neighbouring pair. */
  lemma FormatDocsLength(docs: seq<Doc>)
    requires |docs| > 0
    ensures |FormatDocs(docs)| == TotalLength(PageContents(docs)) + 2 * (|docs| - 1)
  {
    JoinLength(PageContents(docs), Separator);
  }

  /** A passage that neither holds a blank line nor ends with a line break. */
  predicate BlankLineFree(x: string) {
    !Contains(x, Separator) && (x == "" || x[|x| - 1] != '\n')
  }

  /** For the separator "\n\n", being separable means being blank-line free. */
  lemma SeparableIffBlankLineFree(x: string)
    ensures Separable(x, Separator) <==> BlankLineFree(x)
  {
    var s := x + Separator;
    if !BlankLineFree(x) {
      if Contains(x, Separator) {
        var j :| OccursAt(x, Separator, j);
        assert s[j..j + 2] == x[j..j + 2];
        assert OccursAt(s, Separator, j);
      } else {
        var i := |x| - 1;
        assert s[i..i + 2] == [x[i], '\n'];
        assert OccursAt(s, Separator, i);
      }
    } else {
      forall i | 0 <= i < |x| ensures !OccursAt(s, Separator, i) {
        assert s[i] == x[i];
        if i + 1 < |x| {
          assert s[i..i + 2] == x[i..i + 2];
          assert !OccursAt(x, Separator, i);
        } else {
          assert x[i] != '\n';
        }
      }
    }
  }

  /**
    When no passage holds a blank line or ends with a line break, cutting the
    context at every "\n\n" gives back the page contents, unmodified and in order.
  */
  lemma FormatDocsRoundTrip(docs: seq<Doc>)
    requires |docs| > 0
    requires forall i :: 0 <= i < |docs| ==> BlankLineFree(docs[i].pageContent)
    ensures Split(FormatDocs(docs), Separator) == PageContents(docs)
  {
    var cs := PageContents(docs);
    forall k | 0 <= k < |cs| ensures Separable(cs[k], Separator) {
      assert cs[k] == docs[k].pageContent;
      assert BlankLineFree(cs[k]);
      SeparableIffBlankLineFree(cs[k]);
    }
    SplitJoin(cs, Separator);
  }
}
