/** Search documents and the `documents` dictionary the research agents keep:
    a Python dict from URL to document, in insertion order, where the first
    document seen for a URL is the one that stays. */
module Documents {
  import opened Wrappers

  /** A search hit (a JSON object). A key the object lacks is `None`.
      `json` stands for `json.dumps(doc)` and `repr` for `str(doc)`. */
  datatype Doc = Doc(
    url: Option<string>,
    title: Option<string>,
    content: Option<string>,
    snippet: Option<string>,
    json: string,
    repr: string)

  /** An element of a list a tool returned: a dict, or any other value. */
  datatype Value = DictValue(doc: Doc) | OtherValue(repr: string)

  /** What a tool returned: a list (with its `str`) or any other value. */
  datatype ToolOutput = ListOutput(items: seq<Value>, repr: string) | OtherOutput(repr: string)

  /** The dict elements of a returned list, in order. */
  function Dicts(items: seq<Value>): (r: seq<Doc>)
    ensures forall d :: d in r <==> DictValue(d) in items
  {
    if |items| == 0 then []
    else
      var last := items[|items| - 1];
      assert forall v :: v in items <==> v in items[..|items| - 1] || v == last;
      Dicts(items[..|items| - 1]) + (if last.DictValue? then [last.doc] else [])
  }

  datatype Entry = Entry(url: string, doc: Doc)

  /** The keys of the dictionary, in insertion order. */
  function Urls(es: seq<Entry>): (r: seq<string>)
    ensures |r| == |es|
    ensures forall k :: 0 <= k < |es| ==> r[k] == es[k].url
  {
    seq(|es|, k requires 0 <= k < |es| => es[k].url)
  }

  /** Dictionary keys are unique. */
  predicate UniqueUrls(es: seq<Entry>) {
    forall i, j :: 0 <= i < j < |es| ==> es[i].url != es[j].url
  }

  /** `docs.get(url)`. */
  function Lookup(es: seq<Entry>, url: string): (r: Option<Doc>)
    ensures r.Some? <==> url in Urls(es)
    ensures r.Some? ==> exists k :: 0 <= k < |es| && es[k] == Entry(url, r.value)
  {
    if |es| == 0 then None
    else if es[0].url == url then Some(es[0].doc)
    else
      var r := Lookup(es[1..], url);
      assert Urls(es) == [es[0].url] + Urls(es[1..]);
      if r.Some? then
        var k :| 0 <= k < |es[1..]| && es[1..][k] == Entry(url, r.value);
        assert es[k + 1] == Entry(url, r.value);
        r
      else r
  }

  /** `if url not in docs: docs[url] = doc`. */
  function AddIfNew(es: seq<Entry>, url: string, doc: Doc): (r: seq<Entry>)
  {
    if url in Urls(es) then es else es + [Entry(url, doc)]
  }

  /** Adding keeps keys unique, only ever appends, never overwrites a stored
      document, and afterwards the URL is stored. */
  lemma AddIfNewProperties(es: seq<Entry>, url: string, doc: Doc)
    requires UniqueUrls(es)
    ensures var r := AddIfNew(es, url, doc);
      && UniqueUrls(r)
      && es <= r
      && url in Urls(r)
      && (url in Urls(es) ==> r == es)
      && (url !in Urls(es) ==> Lookup(r, url) == Some(doc))
      && (forall u :: u in Urls(es) ==> Lookup(r, u) == Lookup(es, u))
  {
    var r := AddIfNew(es, url, doc);
    if url !in Urls(es) {
      assert Urls(r) == Urls(es) + [url];
      forall u | u in Urls(es)
        ensures Lookup(r, u) == Lookup(es, u)
      {
        LookupAppend(es, Entry(url, doc), u);
      }
      LookupAppend(es, Entry(url, doc), url);
    }
  }

  lemma {:induction false} LookupAppend(es: seq<Entry>, e: Entry, u: string)
    ensures Lookup(es + [e], u) == if u in Urls(es) then Lookup(es, u) else if u == e.url then Some(e.doc) else None
    decreases |es|
  {
    if |es| > 0 {
      assert (es + [e])[1..] == es[1..] + [e];
      assert Urls(es) == [es[0].url] + Urls(es[1..]);
      LookupAppend(es[1..], e, u);
    } else {
      assert (es + [e])[1..] == [];
    }
  }

  /** A looked-up document stays the same when entries are appended. */
  lemma {:induction false} LookupPrefix(es: seq<Entry>, more: seq<Entry>, u: string)
    requires u in Urls(es)
    ensures Lookup(es + more, u) == Lookup(es, u)
    decreases |es|
  {
    assert Urls(es) == [es[0].url] + Urls(es[1..]);
    if es[0].url != u {
      assert (es + more)[1..] == es[1..] + more;
      LookupPrefix(es[1..], more, u);
    }
  }

  /** A dictionary that only grew keeps every stored document. */
  lemma LookupExtended(es: seq<Entry>, rs: seq<Entry>, u: string)
    requires es <= rs && u in Urls(es)
    ensures Lookup(rs, u) == Lookup(es, u)
  {
    assert rs == es + rs[|es|..];
    LookupPrefix(es, rs[|es|..], u);
  }

  /** Appending an entry under a new URL keeps keys unique and adds its URL. */
  lemma AppendNew(es: seq<Entry>, e: Entry)
    requires e.url !in Urls(es)
    ensures UniqueUrls(es) ==> UniqueUrls(es + [e])
    ensures Urls(es + [e]) == Urls(es) + [e.url]
  {
    assert forall i :: 0 <= i < |es| ==> es[i].url != e.url by {
      forall i | 0 <= i < |es| ensures es[i].url != e.url {
        assert Urls(es)[i] == es[i].url;
      }
    }
  }

  lemma UrlsConcat(a: seq<Entry>, b: seq<Entry>)
    ensures Urls(a + b) == Urls(a) + Urls(b)
  {
  }

  /** The entry a document with a URL is stored as. */
  function EntryOf(d: Doc): Entry {
    Entry(d.url.GetOr(""), d)
  }

  function EntriesOf(ds: seq<Doc>): (r: seq<Entry>)
    ensures |r| == |ds|
    ensures forall k :: 0 <= k < |ds| ==> r[k] == EntryOf(ds[k])
  {
    seq(|ds|, k requires 0 <= k < |ds| => EntryOf(ds[k]))
  }

  lemma EntriesOfAppend(es: seq<Entry>, ds: seq<Doc>, d: Doc)
    requires d.url.Some?
    ensures es + EntriesOf(ds) + [Entry(d.url.value, d)] == es + EntriesOf(ds + [d])
  {
    assert EntriesOf(ds + [d]) == EntriesOf(ds) + [EntryOf(d)];
  }

  /** The dictionary after a batch of documents, and the documents of the
      batch that were stored, in order. */
  datatype Merge = Merge(entries: seq<Entry>, added: seq<Doc>)

  /** Reference definition of `for doc in docs: if doc['url'] not in docs:
      docs[doc['url']] = doc`, skipping documents that have no URL. */
  function Merged(es: seq<Entry>, docs: seq<Doc>): (r: Merge)
    ensures UniqueUrls(es) ==> UniqueUrls(r.entries)
    ensures r.entries == es + EntriesOf(r.added)
    ensures forall d :: d in r.added ==> d in docs && d.url.Some? && d.url.value !in Urls(es)
    ensures forall d :: d in docs && d.url.Some? ==> d.url.value in Urls(r.entries)
  {
    if |docs| == 0 then Merge(es, [])
    else
      var m := Merged(es, docs[..|docs| - 1]);
      var d := docs[|docs| - 1];
      assert forall x :: x in docs ==> x in docs[..|docs| - 1] || x == d;
      if d.url.Some? && d.url.value !in Urls(m.entries) then
        var e := Entry(d.url.value, d);
        EntriesOfAppend(es, m.added, d);
        AppendNew(m.entries, e);
        UrlsConcat(es, EntriesOf(m.added));
        assert d.url.value !in Urls(es);
        Merge(m.entries + [e], m.added + [d])
      else m
  }

  /** Merging never overwrites: every URL stored before keeps its document. */
  lemma MergedKeepsStored(es: seq<Entry>, docs: seq<Doc>, u: string)
    requires u in Urls(es)
    ensures Lookup(Merged(es, docs).entries, u) == Lookup(es, u)
  {
    LookupPrefix(es, EntriesOf(Merged(es, docs).added), u);
  }

  /** The `documents` dictionary, updated in place by the tool nodes. */
  class Store {
    var entries: seq<Entry>

    ghost predicate Valid()
      reads this
    {
      UniqueUrls(entries)
    }

    constructor(init: seq<Entry>)
      requires UniqueUrls(init)
      ensures Valid() && entries == init
    {
      entries := init;
    }

    /** `url in docs`. */
    function Has(url: string): (b: bool)
      reads this
      ensures b <==> Lookup(entries, url).Some?
    {
      url in Urls(entries)
    }

    /** Stores `doc` under `url` unless the URL is already a key; reports
        whether it was stored. */
    method Add(url: string, doc: Doc) returns (added: bool)
      requires Valid()
      modifies this
      ensures Valid()
      ensures added <==> url !in Urls(old(entries))
      ensures entries == AddIfNew(old(entries), url, doc)
    {
      AddIfNewProperties(entries, url, doc);
      added := !Has(url);
      if added {
        entries := entries + [Entry(url, doc)];
      }
    }

    /** The inner loop of the tool nodes: stores every document whose URL is
        new, in order, and returns those documents. */
    method AddAll(docs: seq<Doc>) returns (added: seq<Doc>)
      requires Valid()
      modifies this
      ensures Valid()
      ensures Merge(entries, added) == Merged(old(entries), docs)
    {
      added := [];
      var j := 0;
      while j < |docs|
        invariant 0 <= j <= |docs|
        invariant Valid()
        invariant Merge(entries, added) == Merged(old(entries), docs[..j])
      {
        assert docs[..j + 1][..j] == docs[..j];
        var d := docs[j];
        if d.url.Some? {
          var isNew := Add(d.url.value, d);
          if isNew {
            added := added + [d];
          }
        }
        j := j + 1;
      }
      assert docs[..j] == docs;
    }
  }
}
