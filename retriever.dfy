/**
 * The retrieval helpers of rag/retriever.js: keyword inference of the
 * knowledge-base domain of a query, the choice of the search filter, and the
 * assembly of the retrieved documents into the prompt's context string.
 *
 * The vector store is not part of this model: its reply to a search (the
 * documents found, or a failure) is an input.
 */
module Retriever {
  import opened Optional
  import opened JsString

  const TerminalKeywords: seq<string> := ["terminal", "nova", "modu", "מסוף", "מסופון", "קופה", "אשראי", "טרמינל", "נובה"]
  const YachtKeywords: seq<string> := ["yacht", "joy-be", "sailing", "cruise", "יאכטה", "שייט", "הפלגה"]

  /**
   * `inferDomain(query)`: null for a falsy query; otherwise the first domain,
   * in declaration order (Terminals, then Yachts), one of whose keywords
   * occurs in the lower-cased query; null when none does.
   */
  function InferDomain(query: Option<string>): (r: Option<string>)
    ensures !Truthy(query) ==> r.None?
    ensures Truthy(query) ==>
      (r == Some("Terminals") <==> exists k :: 0 <= k < |TerminalKeywords| && Includes(ToLower(query.value), TerminalKeywords[k]))
    ensures Truthy(query) ==>
      (r == Some("Yachts") <==>
        (forall k :: 0 <= k < |TerminalKeywords| ==> !Includes(ToLower(query.value), TerminalKeywords[k]))
        && exists k :: 0 <= k < |YachtKeywords| && Includes(ToLower(query.value), YachtKeywords[k]))
    ensures r.None? || r == Some("Terminals") || r == Some("Yachts")
  {
    if !Truthy(query) then None
    else
      var lower := ToLower(query.value);
      if AnyIncluded(lower, TerminalKeywords) then Some("Terminals")
      else if AnyIncluded(lower, YachtKeywords) then Some("Yachts")
      else None
  }

  /** A query that names no keyword of either domain searches the whole base. */
  lemma InferDomainNone(query: string)
    requires forall k :: 0 <= k < |TerminalKeywords| ==> !Includes(ToLower(query), TerminalKeywords[k])
    requires forall k :: 0 <= k < |YachtKeywords| ==> !Includes(ToLower(query), YachtKeywords[k])
    ensures InferDomain(Some(query)).None?
  {
  }

  /**
   * The `Domain` value of the search filter: the explicit domain when it is
   * truthy, else the inferred one; None means no filter.
   */
  function EffectiveDomain(query: Option<string>, domain: Option<string>): (d: Option<string>)
    ensures Truthy(domain) ==> d == domain
    ensures !Truthy(domain) ==> d == InferDomain(query)
  {
    if Truthy(domain) then domain else InferDomain(query)
  }

  /** The filter `{Domain: d}` is set iff the effective domain is truthy. */
  function SearchFilter(query: Option<string>, domain: Option<string>): (f: Option<string>)
    ensures f.Some? <==> Truthy(EffectiveDomain(query, domain))
    ensures f.Some? ==> f == EffectiveDomain(query, domain)
  {
    var d := EffectiveDomain(query, domain);
    if Truthy(d) then d else None
  }

  /** A filter is used whenever the caller names a domain, and whenever the query names a keyword. */
  lemma FilterWhenDomainKnown(query: Option<string>, domain: Option<string>)
    ensures Truthy(domain) ==> SearchFilter(query, domain) == domain
    ensures !Truthy(domain) && InferDomain(query).Some? ==> SearchFilter(query, domain) == InferDomain(query)
    ensures !Truthy(domain) && InferDomain(query).None? ==> SearchFilter(query, domain).None?
  {
  }

  /** The vector store's reply to a search: the page contents of the documents found, in rank order, or a failure. */
  datatype SearchReply = SearchFailed | Found(docs: seq<string>)

  /**
   * `retrieveContext(query, k, domain)`: the store is searched for `k`
   * documents under the filter; the documents found are returned, and any
   * error gives no documents.
   */
  function RetrieveContext(store: (Option<string>, int, Option<string>) -> SearchReply,
                           query: Option<string>, k: int, domain: Option<string>): (docs: seq<string>)
    ensures store(query, k, SearchFilter(query, domain)).SearchFailed? ==> docs == []
    ensures store(query, k, SearchFilter(query, domain)).Found? ==> docs == store(query, k, SearchFilter(query, domain)).docs
  {
    match store(query, k, SearchFilter(query, domain))
    case SearchFailed => []
    case Found(docs) => docs
  }

  /** The block of the document at 0-based position `i`: a 1-based header line, then its content. */
  function Block(docs: seq<string>, i: nat): (b: string)
    requires i < |docs|
    ensures var n := |NatToString(i + 1)|;
      && |b| == 12 + n + |docs[i]|
      && b[..10] == "[Документ " && b[10 + n..12 + n] == "]\n" && b[12 + n..] == docs[i]
      && b[10..10 + n] == NatToString(i + 1) && DigitsValue(b[10..10 + n]) == i + 1
    ensures |b| >= |docs[i]| && b[|b| - |docs[i]|..] == docs[i]
  {
    var num := NatToString(i + 1);
    var b := "[Документ " + num + "]\n" + docs[i];
    assert b[10..10 + |num|] == num && b[12 + |num|..] == docs[i];
    DigitsValueNatToString(i + 1);
    b
  }

  function Blocks(docs: seq<string>): (bs: seq<string>)
    ensures |bs| == |docs| && forall i :: 0 <= i < |docs| ==> bs[i] == Block(docs, i)
  {
    seq(|docs|, i requires 0 <= i < |docs| => Block(docs, i))
  }

  const Separator: string := "\n\n---\n\n"

  /**
   * `getContextForPrompt`: the empty string for no documents; otherwise the
   * documents' blocks joined by the separator.
   */
  function ContextForPrompt(docs: seq<string>): (context: string)
    ensures docs == [] ==> context == ""
    ensures forall i :: 0 <= i < |docs| ==> Includes(context, Block(docs, i))
  {
    var bs := Blocks(docs);
    forall i | 0 <= i < |docs| ensures Includes(Join(bs, Separator), Block(docs, i)) {
      JoinIncludes(bs, Separator, i);
    }
    if |docs| == 0 then "" else Join(bs, Separator)
  }

  /** Every retrieved document's content reaches the prompt. */
  lemma ContextHoldsEveryDocument(docs: seq<string>, i: nat)
    requires i < |docs|
    ensures Includes(ContextForPrompt(docs), docs[i])
  {
    var b := Block(docs, i);
    assert Includes(ContextForPrompt(docs), b);
    IncludesIff(ContextForPrompt(docs), b);
    var c := ContextForPrompt(docs);
    var j :| 0 <= j <= |c| && OccursAt(c, b, j);
    var at := j + |b| - |docs[i]|;
    assert c[at..at + |docs[i]|] == b[|b| - |docs[i]|..];
    IncludesAt(c, docs[i], at);
  }

  /** A single document is its block alone; the numbering starts at 1. */
  lemma ContextOfOne(doc: string)
    ensures ContextForPrompt([doc]) == "[Документ 1]\n" + doc
  {
    assert NatToString(1) == "1";
  }
}
