/**
 * Tokenizer pipelines as values.
 *
 * A pipeline is a base tokenizer wrapped by zero or more filters, built by
 * chaining `.filter(...)` calls: `SimpleTokenizer.filter(a).filter(b)` wraps
 * the simple tokenizer first in `a`, then in `b`. The algorithms of the
 * tokenizers and filters are not modelled; only which ones a pipeline is made
 * of, and in which order.
 */
module Pipelines {

  /**
   * Base tokenizers: the three the default registry uses, and any other
   * tokenizer a caller supplies, told apart by an identifier.
   */
  datatype BaseKind =
    | Raw       // the whole text as one token
    | Simple    // split on whitespace and punctuation
    | Japanese  // Japanese segmentation
    | OtherTokenizer(id: nat)

  /** Filters: the three the default registry uses, and any other filter a caller supplies. */
  datatype TokenFilter =
    | RemoveLong(limit: nat)  // drop tokens longer than `limit`
    | LowerCaser
    | Stemmer
    | OtherFilter(id: nat)

  /** The length limit that every default pipeline with a length filter uses. */
  const DefaultMaxTokenLength: nat := 40

  /**
   * A composed pipeline: a base tokenizer, or a pipeline wrapped in one more
   * filter. The outermost filter is the last one attached and sees the
   * tokens after every inner stage.
   */
  datatype Pipeline =
    | Tokenizer(kind: BaseKind)
    | Filtered(inner: Pipeline, filter: TokenFilter)
  {
    /** The base tokenizer at the bottom of the chain. */
    function Base(): BaseKind
    {
      match this
      case Tokenizer(k) => k
      case Filtered(inner, _) => inner.Base()
    }

    /** The filters, innermost (first attached) first. */
    function Filters(): seq<TokenFilter>
    {
      match this
      case Tokenizer(_) => []
      case Filtered(inner, f) => inner.Filters() + [f]
    }

    /**
     * `.filter(f)`: wrap this pipeline in `f`. The base is kept and `f` is
     * appended after every filter already attached.
     */
    function Filter(f: TokenFilter): (r: Pipeline)
      ensures r.Base() == Base()
      ensures r.Filters() == Filters() + [f]
      ensures r != this
    {
      Filtered(this, f)
    }
  }

  /** The pipeline made of base `b` with `fs` attached in order, first element innermost. */
  function Build(b: BaseKind, fs: seq<TokenFilter>): Pipeline
    decreases |fs|
  {
    if fs == [] then Tokenizer(b)
    else Build(b, fs[..|fs| - 1]).Filter(fs[|fs| - 1])
  }

  /** Building from a base and a filter list gives back exactly that base and list. */
  lemma {:induction false} BuildThenFlatten(b: BaseKind, fs: seq<TokenFilter>)
    ensures Build(b, fs).Base() == b
    ensures Build(b, fs).Filters() == fs
    decreases |fs|
  {
    if fs != [] {
      BuildThenFlatten(b, fs[..|fs| - 1]);
      assert fs[..|fs| - 1] + [fs[|fs| - 1]] == fs;
    }
  }

  /** Every pipeline is determined by its base and its filter list. */
  lemma {:induction false} FlattenThenBuild(p: Pipeline)
    ensures Build(p.Base(), p.Filters()) == p
  {
    match p
    case Tokenizer(_) =>
    case Filtered(inner, f) =>
      FlattenThenBuild(inner);
      var fs := p.Filters();
      assert fs[..|fs| - 1] == inner.Filters();
  }

  /** Two pipelines are equal exactly when their bases and filter lists are. */
  lemma PipelineExtensionality(p: Pipeline, q: Pipeline)
    ensures p == q <==> p.Base() == q.Base() && p.Filters() == q.Filters()
  {
    if p.Base() == q.Base() && p.Filters() == q.Filters() {
      FlattenThenBuild(p);
      FlattenThenBuild(q);
    }
  }
}
