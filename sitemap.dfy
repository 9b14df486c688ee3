/**
 * Sitemap flattening: `parseSitemap` of src/sitemap-processor.js.
 *
 * A sitemap document (sitemaps.org protocol 0.9) is either a `<sitemapindex>`
 * whose `<sitemap><loc>` children name further sitemap documents, or a
 * `<urlset>` whose `<url><loc>` children name pages. Resolving a location
 * fetches and parses the document there and, depth first and in document
 * order, turns it into one flat list of page locations.
 *
 * The HTTP GET and the XML parser are one abstract `Fetch` function from a
 * location to the parsed document or the message of the error either of
 * them threw.
 */
module Sitemap {
  import opened Wrappers

  /** A `<sitemap>` or `<url>` element; only its `<loc>` text is read. */
  datatype Entry = Entry(loc: string)

  /**
   * How the XML parser (run with `explicitArray: false`) delivers the
   * children of one name: a lone child as the bare object, two or more as
   * an array. So `Many` only ever arrives with two or more items; the
   * parser never delivers an empty array.
   */
  datatype OneOrMany<T> = One(item: T) | Many(items: seq<T>)

  /**
   * A parsed document, seen through the two checks the resolver makes:
   * `sitemapindex` is `Some` when `result.sitemapindex.sitemap` is truthy
   * (a `<sitemapindex>` root with at least one `<sitemap>` child), `urlset`
   * likewise for `result.urlset.url`. `None` stands for a missing root and
   * for a root without such children alike, since both fail the check: an
   * empty `<sitemapindex>` or an empty `<urlset>` is `None`, not `Many([])`.
   */
  datatype Doc = Doc(sitemapindex: Option<OneOrMany<Entry>>, urlset: Option<OneOrMany<Entry>>)

  /** The fetch-and-parse step for one location. */
  type Fetch = string -> Result<Doc>

  /** The message of the error thrown for a document of neither shape. */
  const InvalidFormat: string := "无效的sitemap格式"

  /**
   * The message of the model's own depth bound (the source has none: a
   * self-referencing index makes it recurse without end).
   */
  const DepthExceeded: string := "sitemap index nesting deeper than the depth bound"

  /**
   * The one-or-many children as a list (`Array.isArray(x) ? x : [x]`): a
   * lone child becomes a one-element list, never an empty one, and an
   * array is kept with its order.
   */
  function AsList<T>(x: OneOrMany<T>): (r: seq<T>)
    ensures x.One? ==> r == [x.item]
    ensures x.Many? ==> r == x.items
    ensures r == [] <==> x == Many([])
  {
    match x
    case One(item) => [item]
    case Many(items) => items
  }

  /** The `loc` of every entry (`urls.map(url => url.loc)`). */
  function Locs(es: seq<Entry>): (r: seq<string>)
    ensures |r| == |es|
    ensures forall i :: 0 <= i < |es| ==> r[i] == es[i].loc
  {
    if es == [] then [] else [es[0].loc] + Locs(es[1..])
  }

  /**
   * `parseSitemap(loc)`: the page locations under `loc`, or the first error.
   * `depth` is how many documents deep the model may still fetch; at 0 it
   * fails with `DepthExceeded` instead of fetching.
   */
  function Resolve(fetch: Fetch, loc: string, depth: nat): (r: Result<seq<string>>)
    ensures depth == 0 ==> r == Err(DepthExceeded)
    ensures r.Ok? ==>
              && fetch(loc).Ok?
              && (fetch(loc).value.sitemapindex.Some? || fetch(loc).value.urlset.Some?)
    decreases depth, 0
  {
    if depth == 0 then Err(DepthExceeded)
    else
      match fetch(loc)
      case Err(msg) => Err(msg)
      case Ok(doc) =>
        if doc.sitemapindex.Some? then ResolveAll(fetch, AsList(doc.sitemapindex.value), depth - 1)
        else if doc.urlset.Some? then Ok(Locs(AsList(doc.urlset.value)))
        else Err(InvalidFormat)
  }

  /**
   * The loop over an index's children: each child resolved in turn and its
   * pages appended; the first child that fails ends the loop with its error.
   */
  function ResolveAll(fetch: Fetch, children: seq<Entry>, depth: nat): (r: Result<seq<string>>)
    ensures children == [] ==> r == Ok([])
    ensures r.Err? ==> children != []
    decreases depth, |children|
  {
    if children == [] then Ok([])
    else
      match Resolve(fetch, children[0].loc, depth)
      case Err(msg) => Err(msg)
      case Ok(first) =>
        match ResolveAll(fetch, children[1..], depth)
        case Err(msg) => Err(msg)
        case Ok(rest) => Ok(first + rest)
  }

  /** Two results in sequence: the first error, else both lists joined. */
  function AndThen(a: Result<seq<string>>, b: Result<seq<string>>): Result<seq<string>>
  {
    if a.Err? then a else if b.Err? then b else Ok(a.value + b.value)
  }

  /** The lists joined end to end. */
  function Concat(parts: seq<seq<string>>): (r: seq<string>)
  {
    if parts == [] then [] else parts[0] + Concat(parts[1..])
  }

  /** The pages of a result, empty for an error. */
  function Pages(r: Result<seq<string>>): seq<string>
  {
    if r.Ok? then r.value else []
  }

  // ---------------------------------------------------------------------
  // One document
  // ---------------------------------------------------------------------

  /**
   * A URL set with n >= 1 entries resolves to exactly n locations, the
   * `loc` of each entry in document order. (A URL set with no entries is a
   * document of neither shape; see `NeitherShapeFails`.)
   */
  lemma UrlSetYieldsLocs(fetch: Fetch, loc: string, depth: nat, es: seq<Entry>)
    requires depth > 0 && |es| >= 1
    requires fetch(loc).Ok? && fetch(loc).value.sitemapindex.None?
    requires fetch(loc).value.urlset == Some(Many(es))
    ensures Resolve(fetch, loc, depth).Ok?
    ensures |Resolve(fetch, loc, depth).value| == |es|
    ensures forall i :: 0 <= i < |es| ==> Resolve(fetch, loc, depth).value[i] == es[i].loc
  {
  }

  /**
   * A lone child, delivered as a bare object, counts as a one-element
   * list: a single `<url>` gives its one location, a single `<sitemap>`
   * gives exactly what that child resolves to.
   */
  lemma SingleChildIsKept(fetch: Fetch, loc: string, depth: nat, e: Entry)
    requires depth > 0 && fetch(loc).Ok?
    ensures fetch(loc).value.sitemapindex.None? && fetch(loc).value.urlset == Some(One(e))
            ==> Resolve(fetch, loc, depth) == Ok([e.loc])
    ensures fetch(loc).value.sitemapindex == Some(One(e))
            ==> Resolve(fetch, loc, depth) == Resolve(fetch, e.loc, depth - 1)
  {
    assert Locs([e]) == [e.loc];
    if fetch(loc).value.sitemapindex == Some(One(e)) {
      var r := Resolve(fetch, e.loc, depth - 1);
      assert [e][1..] == [];
      assert ResolveAll(fetch, [e][1..], depth - 1) == Ok([]);
      if r.Ok? {
        assert r.value + [] == r.value;
      }
      assert ResolveAll(fetch, [e], depth - 1) == r;
    }
  }

  /**
   * A document that has neither an index with `<sitemap>` children nor a
   * URL set with `<url>` children fails with the format error.
   */
  lemma NeitherShapeFails(fetch: Fetch, loc: string, depth: nat)
    requires depth > 0
    requires fetch(loc).Ok? && fetch(loc).value.sitemapindex.None? && fetch(loc).value.urlset.None?
    ensures Resolve(fetch, loc, depth) == Err(InvalidFormat)
  {
  }

  /** When a document has both shapes, the index is the one resolved. */
  lemma IndexBeatsUrlSet(fetch: Fetch, loc: string, depth: nat)
    requires depth > 0
    requires fetch(loc).Ok? && fetch(loc).value.sitemapindex.Some? && fetch(loc).value.urlset.Some?
    ensures Resolve(fetch, loc, depth)
            == ResolveAll(fetch, AsList(fetch(loc).value.sitemapindex.value), depth - 1)
  {
  }

  /** A failed fetch or parse is the error of the whole resolution. */
  lemma FetchErrorPropagates(fetch: Fetch, loc: string, depth: nat)
    requires depth > 0 && fetch(loc).Err?
    ensures Resolve(fetch, loc, depth) == Err(fetch(loc).msg)
  {
  }

  // ---------------------------------------------------------------------
  // The children of an index
  // ---------------------------------------------------------------------

  /** Resolving `xs + ys` is resolving `xs`, then `ys`. */
  lemma {:induction false} ResolveAllAppend(fetch: Fetch, xs: seq<Entry>, ys: seq<Entry>, depth: nat)
    ensures ResolveAll(fetch, xs + ys, depth)
            == AndThen(ResolveAll(fetch, xs, depth), ResolveAll(fetch, ys, depth))
    decreases |xs|
  {
    if xs == [] {
      assert xs + ys == ys;
      var b := ResolveAll(fetch, ys, depth);
      if b.Ok? {
        assert [] + b.value == b.value;
      }
    } else {
      assert (xs + ys)[0] == xs[0];
      assert (xs + ys)[1..] == xs[1..] + ys;
      ResolveAllAppend(fetch, xs[1..], ys, depth);
      var h := Resolve(fetch, xs[0].loc, depth);
      var t := ResolveAll(fetch, xs[1..], depth);
      var b := ResolveAll(fetch, ys, depth);
      if h.Ok? && t.Ok? && b.Ok? {
        assert h.value + (t.value + b.value) == (h.value + t.value) + b.value;
      }
    }
  }

  /**
   * The children resolve together exactly when every child resolves, and
   * then to the concatenation of the children's lists in document order.
   */
  lemma {:induction false} ResolveAllIsConcat(fetch: Fetch, children: seq<Entry>, depth: nat)
    ensures ResolveAll(fetch, children, depth).Ok?
            <==> forall i :: 0 <= i < |children| ==> Resolve(fetch, children[i].loc, depth).Ok?
    ensures ResolveAll(fetch, children, depth).Ok?
            ==> ResolveAll(fetch, children, depth).value
                == Concat(seq(|children|, i requires 0 <= i < |children| => Pages(Resolve(fetch, children[i].loc, depth))))
    decreases |children|
  {
    var parts := seq(|children|, i requires 0 <= i < |children| => Pages(Resolve(fetch, children[i].loc, depth)));
    if children != [] {
      var tail := children[1..];
      ResolveAllIsConcat(fetch, tail, depth);
      var tailParts := seq(|tail|, i requires 0 <= i < |tail| => Pages(Resolve(fetch, tail[i].loc, depth)));
      assert parts[1..] == tailParts;
      assert (forall i :: 0 <= i < |children| ==> Resolve(fetch, children[i].loc, depth).Ok?)
             <==> Resolve(fetch, children[0].loc, depth).Ok?
                  && forall i :: 0 <= i < |tail| ==> Resolve(fetch, tail[i].loc, depth).Ok?
      by {
        forall i | 0 <= i < |tail| ensures tail[i] == children[i + 1] { }
        if forall i :: 0 <= i < |tail| ==> Resolve(fetch, tail[i].loc, depth).Ok? {
          forall i | 1 <= i < |children|
            ensures Resolve(fetch, children[i].loc, depth).Ok?
          {
            assert children[i] == tail[i - 1];
          }
        }
      }
    }
  }

  /**
   * If the children do not all resolve, the loop fails with the error of
   * the first child that fails, and every child before it resolved: no
   * partial list is returned.
   */
  lemma {:induction false} ResolveAllFirstError(fetch: Fetch, children: seq<Entry>, depth: nat)
    requires ResolveAll(fetch, children, depth).Err?
    ensures exists k ::
              && 0 <= k < |children|
              && Resolve(fetch, children[k].loc, depth).Err?
              && ResolveAll(fetch, children, depth).msg == Resolve(fetch, children[k].loc, depth).msg
              && forall j :: 0 <= j < k ==> Resolve(fetch, children[j].loc, depth).Ok?
    decreases |children|
  {
    var h := Resolve(fetch, children[0].loc, depth);
    if h.Err? {
      assert Resolve(fetch, children[0].loc, depth).Err?;
    } else {
      var tail := children[1..];
      ResolveAllFirstError(fetch, tail, depth);
      var k :| 0 <= k < |tail|
        && Resolve(fetch, tail[k].loc, depth).Err?
        && ResolveAll(fetch, tail, depth).msg == Resolve(fetch, tail[k].loc, depth).msg
        && forall j :: 0 <= j < k ==> Resolve(fetch, tail[j].loc, depth).Ok?;
      assert children[k + 1] == tail[k];
      forall j | 0 <= j < k + 1 ensures Resolve(fetch, children[j].loc, depth).Ok? {
        if j > 0 { assert children[j] == tail[j - 1]; }
      }
    }
  }

  /**
   * An index resolves exactly when each of its children does, and then to
   * the children's lists concatenated in document order.
   */
  lemma IndexIsConcatOfChildren(fetch: Fetch, loc: string, depth: nat)
    requires depth > 0
    requires fetch(loc).Ok? && fetch(loc).value.sitemapindex.Some?
    ensures var children := AsList(fetch(loc).value.sitemapindex.value);
      && (Resolve(fetch, loc, depth).Ok?
          <==> forall i :: 0 <= i < |children| ==> Resolve(fetch, children[i].loc, depth - 1).Ok?)
      && (Resolve(fetch, loc, depth).Ok?
          ==> Resolve(fetch, loc, depth).value
              == Concat(seq(|children|, i requires 0 <= i < |children| => Pages(Resolve(fetch, children[i].loc, depth - 1)))))
  {
    ResolveAllIsConcat(fetch, AsList(fetch(loc).value.sitemapindex.value), depth - 1);
  }

  /**
   * An index with two children whose documents are URL sets resolves to
   * the first child's locations immediately followed by the second's.
   * (The parser delivers such arrays of entries with at least two items;
   * a lone entry is covered by `SingleChildIsKept`.)
   */
  lemma TwoLevelIndex(fetch: Fetch, loc: string, depth: nat, a: Entry, b: Entry, ms: seq<Entry>, ks: seq<Entry>)
    requires depth > 1
    requires fetch(loc) == Ok(Doc(Some(Many([a, b])), None))
    requires fetch(a.loc) == Ok(Doc(None, Some(Many(ms))))
    requires fetch(b.loc) == Ok(Doc(None, Some(Many(ks))))
    ensures Resolve(fetch, loc, depth) == Ok(Locs(ms) + Locs(ks))
  {
    ResolveAllAppend(fetch, [a], [b], depth - 1);
    assert [a] + [b] == [a, b];
    assert Locs(ms) + [] == Locs(ms);
    assert Locs(ks) + [] == Locs(ks);
  }

  // ---------------------------------------------------------------------
  // The depth bound
  // ---------------------------------------------------------------------

  /**
   * The bound only ever cuts a resolution short: once a location resolves
   * within some depth, every larger depth gives the very same list.
   */
  lemma {:induction false} DeeperResolvesTheSame(fetch: Fetch, loc: string, depth: nat, deeper: nat)
    requires depth <= deeper && Resolve(fetch, loc, depth).Ok?
    ensures Resolve(fetch, loc, deeper) == Resolve(fetch, loc, depth)
    decreases depth, 0
  {
    var doc := fetch(loc).value;
    if doc.sitemapindex.Some? {
      DeeperResolvesAllTheSame(fetch, AsList(doc.sitemapindex.value), depth - 1, deeper - 1);
    }
  }

  /** `DeeperResolvesTheSame` for the children of an index. */
  lemma {:induction false} DeeperResolvesAllTheSame(fetch: Fetch, children: seq<Entry>, depth: nat, deeper: nat)
    requires depth <= deeper && ResolveAll(fetch, children, depth).Ok?
    ensures ResolveAll(fetch, children, deeper) == ResolveAll(fetch, children, depth)
    decreases depth, |children|
  {
    if children != [] {
      DeeperResolvesTheSame(fetch, children[0].loc, depth, deeper);
      DeeperResolvesAllTheSame(fetch, children[1..], depth, deeper);
    }
  }

  /**
   * Nor does the bound change any other failure: an error that is not the
   * bound's own stays the same error at every larger depth. So the bound
   * only ever replaces a result by `DepthExceeded`.
   */
  lemma {:induction false} DeeperFailsTheSame(fetch: Fetch, loc: string, depth: nat, deeper: nat)
    requires depth <= deeper
    requires Resolve(fetch, loc, depth).Err? && Resolve(fetch, loc, depth).msg != DepthExceeded
    ensures Resolve(fetch, loc, deeper) == Resolve(fetch, loc, depth)
    decreases depth, 0
  {
    var doc := fetch(loc);
    if doc.Ok? && doc.value.sitemapindex.Some? {
      DeeperFailsAllTheSame(fetch, AsList(doc.value.sitemapindex.value), depth - 1, deeper - 1);
    }
  }

  /** `DeeperFailsTheSame` for the children of an index. */
  lemma {:induction false} DeeperFailsAllTheSame(fetch: Fetch, children: seq<Entry>, depth: nat, deeper: nat)
    requires depth <= deeper
    requires ResolveAll(fetch, children, depth).Err? && ResolveAll(fetch, children, depth).msg != DepthExceeded
    ensures ResolveAll(fetch, children, deeper) == ResolveAll(fetch, children, depth)
    decreases depth, |children|
  {
    var first := Resolve(fetch, children[0].loc, depth);
    if first.Err? {
      DeeperFailsTheSame(fetch, children[0].loc, depth, deeper);
    } else {
      DeeperResolvesTheSame(fetch, children[0].loc, depth, deeper);
      DeeperFailsAllTheSame(fetch, children[1..], depth, deeper);
    }
  }
}
