/**
 * Documents as the preprocessing code sees them, and the steps the two
 * preprocessing modules (src/utils/utils.py and src/vector/utils.py) share:
 * table-of-contents removal, the PDF file-name filter and mangling, cleaning of
 * the first pages of a parsed file, flattening per-file lists, and the list of
 * documents that chunking extends in place.
 */
module Documents {
  import opened Outcomes
  import opened PyStr
  import opened PyDict

  /** A metadata value: the code stores booleans, strings, integers and `None`. */
  datatype Meta = Flag(b: bool) | Str(s: string) | Num(n: int) | Null

  /** A `Document`: its text and its metadata dictionary. */
  datatype Document = Document(text: string, meta: Dict<Meta>)

  /** A parsed node: its text and its character offsets in the page. */
  datatype ParsedNode = ParsedNode(text: string, start: Meta, end: Meta)

  /** Python truthiness of a metadata value. */
  predicate Truthy(m: Meta)
  {
    match m
    case Flag(b) => b
    case Str(s) => s != []
    case Num(n) => n != 0
    case Null => false
  }

  /** `str(m)`, as an f-string renders it. */
  function Render(m: Meta): (r: string)
    ensures m.Str? ==> r == m.s
  {
    match m
    case Flag(b) => if b then "True" else "False"
    case Str(s) => s
    case Num(n) => IntToDecimal(n)
    case Null => "None"
  }

  /** `metadata[k]`: `KeyError` when absent. */
  function MetaAt(meta: Dict<Meta>, k: string): (r: Result<Meta>)
    ensures r.Ok? <==> k in Keys(meta)
    ensures r.Ok? ==> Get(meta, k) == Some(r.value)
    ensures r.Err? ==> r.error == KeyError(k)
  {
    match Get(meta, k)
    case None => Err(KeyError(k))
    case Some(v) => Ok(v)
  }

  /** `metadata.get(k, default)`. */
  function MetaGet(meta: Dict<Meta>, k: string, default: Meta): (r: Meta)
    ensures k in Keys(meta) ==> Some(r) == Get(meta, k)
    ensures k !in Keys(meta) ==> r == default
  {
    match Get(meta, k)
    case None => default
    case Some(v) => v
  }

  /** A text splitter configured with a chunk size and an overlap. */
  type Splitter = (nat, nat, string) -> seq<string>

  // ----- table of contents -----

  const Marker := "TABLE OF CONTENTS"

  /** The first `#` at or after `i`. */
  function HashFrom(s: string, i: nat): (r: Option<nat>)
    ensures r.Some? ==> i <= r.value < |s| && s[r.value] == '#' && forall k :: i <= k < r.value ==> s[k] != '#'
    ensures r.None? ==> forall k :: i <= k < |s| ==> s[k] != '#'
    decreases |s| - i
  {
    if i >= |s| then None
    else if s[i] == '#' then Some(i)
    else HashFrom(s, i + 1)
  }

  /**
   * `re.sub(r"TABLE OF CONTENTS.*?(?=#)", "", s, flags=re.DOTALL)`: scanning
   * from the left, an occurrence of the marker followed somewhere by a `#` is
   * deleted together with everything up to (not including) the first such `#`;
   * the scan resumes at that `#`. Every other character is kept.
   */
  function RemoveToc(s: string): (r: string)
    ensures |r| <= |s|
    decreases |s|
  {
    if s == [] then []
    else if OccursAt(s, Marker, 0) && HashFrom(s, |Marker|).Some? then RemoveToc(s[HashFrom(s, |Marker|).value..])
    else [s[0]] + RemoveToc(s[1..])
  }

  /** `remove_table_of_contents`: the substitution, then `strip()`. */
  function RemoveTableOfContents(text: string): (r: string)
    ensures |r| <= |text|
  {
    Strip(RemoveToc(text))
  }

  /** The cleaned text neither starts nor ends with whitespace. */
  lemma TableOfContentsStripped(text: string)
    ensures var r := RemoveTableOfContents(text);
      r == [] || (!IsSpace(r[0]) && !IsSpace(r[|r| - 1]))
  {
  }

  /** Text without any `#` is left as it is: an occurrence with no later `#` is kept. */
  lemma {:induction false} TocKeptWithoutHash(s: string)
    requires forall k :: 0 <= k < |s| ==> s[k] != '#'
    ensures RemoveToc(s) == s
    decreases |s|
  {
    if s != [] {
      assert HashFrom(s, |Marker|).None? || |Marker| >= |s|;
      TocKeptWithoutHash(s[1..]);
    }
  }

  /** Text without the marker is left as it is. */
  lemma {:induction false} TocKeptWithoutMarker(s: string)
    requires forall i :: 0 <= i ==> !OccursAt(s, Marker, i)
    ensures RemoveToc(s) == s
    decreases |s|
  {
    if s != [] {
      forall i | 0 <= i ensures !OccursAt(s[1..], Marker, i) {
        OccursShift(s, i);
      }
      TocKeptWithoutMarker(s[1..]);
    }
  }

  /**
   * The first occurrence of the marker is deleted up to the next `#`; what comes
   * before it is kept and the scan goes on after the `#`.
   */
  lemma TocSectionRemoved(a: string, b: string, c: string)
    requires forall k :: 0 <= k < |b| ==> b[k] != '#'
    requires forall i :: 0 <= i < |a| ==> !OccursAt(a + Marker + b + "#" + c, Marker, i)
    ensures RemoveToc(a + Marker + b + "#" + c) == a + "#" + RemoveToc(c)
  {
    var t := Marker + b + "#" + c;
    assert a + Marker + b + "#" + c == a + t;
    TocPrefixKept(a, t);
    TocHeadRemoved(b, c);
  }

  /** A prefix in which no occurrence of the marker starts is kept as it is. */
  lemma {:induction false} TocPrefixKept(a: string, t: string)
    requires forall i :: 0 <= i < |a| ==> !OccursAt(a + t, Marker, i)
    ensures RemoveToc(a + t) == a + RemoveToc(t)
    decreases |a|
  {
    if a != [] {
      var s := a + t;
      assert s[1..] == a[1..] + t;
      assert !OccursAt(s, Marker, 0);
      TocKeepFirst(s);
      forall i | 0 <= i < |a[1..]| ensures !OccursAt(a[1..] + t, Marker, i) {
        OccursShift(s, i);
      }
      TocPrefixKept(a[1..], t);
      assert [a[0]] + (a[1..] + RemoveToc(t)) == a + RemoveToc(t);
    } else {
      assert a + t == t;
    }
  }

  lemma TocHeadRemoved(b: string, c: string)
    requires forall k :: 0 <= k < |b| ==> b[k] != '#'
    ensures RemoveToc(Marker + b + "#" + c) == "#" + RemoveToc(c)
  {
    var s := Marker + b + "#" + c;
    assert s[..|Marker|] == Marker;
    assert OccursAt(s, Marker, 0);
    forall k | |Marker| <= k < |Marker| + |b| ensures s[k] != '#' {
      assert s[k] == b[k - |Marker|];
    }
    HashFromFirst(s, |Marker|, |Marker| + |b|);
    assert s[|Marker| + |b|..] == "#" + c;
    var h := "#" + c;
    TocKeepFirst(h);
    assert h[1..] == c;
  }

  /** `HashFrom` finds the first `#`. */
  lemma {:induction false} HashFromFirst(s: string, i: nat, j: nat)
    requires i <= j < |s| && s[j] == '#' && forall k :: i <= k < j ==> s[k] != '#'
    ensures HashFrom(s, i) == Some(j)
    decreases j - i
  {
    if i < j {
      HashFromFirst(s, i + 1, j);
    }
  }

  /** A character where the marker does not start is kept. */
  lemma TocKeepFirst(s: string)
    requires s != [] && (!OccursAt(s, Marker, 0) || s[0] == '#')
    ensures RemoveToc(s) == [s[0]] + RemoveToc(s[1..])
  {
    if s[0] == '#' && |s| >= |Marker| {
      assert s[0] != Marker[0];
    }
  }

  lemma OccursShift(s: string, i: nat)
    requires s != []
    ensures OccursAt(s[1..], Marker, i) <==> OccursAt(s, Marker, i + 1)
  {
    if i + 1 + |Marker| <= |s| {
      assert s[1..][i..i + |Marker|] == s[i + 1..i + 1 + |Marker|];
    }
  }

  // ----- file names -----

  /** The last `.` of `s` at or before `i - 1`. */
  function LastDot(s: string, i: nat): (r: Option<nat>)
    requires i <= |s|
    ensures r.Some? ==> r.value < i && s[r.value] == '.' && forall k :: r.value < k < i ==> s[k] != '.'
    ensures r.None? ==> forall k :: 0 <= k < i ==> s[k] != '.'
  {
    if i == 0 then None
    else if s[i - 1] == '.' then Some(i - 1)
    else LastDot(s, i - 1)
  }

  /**
   * `os.path.splitext(name)[0]` for a name without a directory: the name up to
   * its last dot, unless only dots come before that dot (a leading-dot name has
   * no extension).
   */
  function StemOf(name: string): (r: string)
    ensures |r| <= |name| && r == name[..|r|]
  {
    match LastDot(name, |name|)
    case None => name
    case Some(d) => if exists k :: 0 <= k < d && name[k] != '.' then name[..d] else name
  }

  /** `os.path.splitext(name)[0].lower().replace(' ', '_')`. */
  function ModifiedFileName(name: string): (r: string)
    ensures |r| == |StemOf(name)|
    ensures forall i :: 0 <= i < |r| ==> r[i] != ' '
  {
    ReplaceChar(Lower(StemOf(name)), ' ', '_')
  }

  /** A PDF name with something other than dots before its extension has the name without ".pdf" as its stem. */
  lemma PdfStem(name: string)
    requires EndsWith(name, ".pdf")
    requires exists k :: 0 <= k < |name| - 4 && name[k] != '.'
    ensures StemOf(name) == name[..|name| - 4]
  {
    assert name[|name| - 4] == '.';
    assert LastDot(name, |name|) == Some(|name| - 4) by {
      assert name[|name| - 4..] == ".pdf";
    }
  }

  /** The source name of a PDF: its stem, lower-cased, spaces turned into underscores. */
  lemma SourceNameOfPdf(name: string)
    requires EndsWith(name, ".pdf")
    requires exists k :: 0 <= k < |name| - 4 && name[k] != '.'
    ensures |ModifiedFileName(name)| == |name| - 4
    ensures forall i :: 0 <= i < |name| - 4 ==>
      ModifiedFileName(name)[i] == (if name[i] == ' ' then '_' else LowerChar(name[i]))
  {
    PdfStem(name);
  }

  // ----- parsed pages -----

  /** The cleaning loop of `parse_docs`: it stops after the page at index 5, so six pages are cleaned. */
  const CleanedPages := 6

  /** A page with its table of contents removed. */
  function CleanPage(d: Document): Document
  {
    d.(text := RemoveTableOfContents(d.text))
  }

  /** The pages after the cleaning loop, as values. */
  function CleanFirst(pages: seq<Document>): (r: seq<Document>)
    ensures |r| == |pages|
    ensures forall i :: 0 <= i < |pages| ==> r[i].meta == pages[i].meta
    ensures forall i :: 0 <= i < |pages| && i < CleanedPages ==> r[i].text == RemoveTableOfContents(pages[i].text)
    ensures forall i :: CleanedPages <= i < |pages| ==> r[i] == pages[i]
  {
    seq(|pages|, i requires 0 <= i < |pages| => if i < CleanedPages then CleanPage(pages[i]) else pages[i])
  }

  /**
   * `for idx, doc in enumerate(documents): doc.text = remove_table_of_contents(doc.text); if idx > 4: break`:
   * the text of each of the first six pages is rewritten in place.
   */
  method CleanFirstPages(pages: array<Document>)
    modifies pages
    ensures pages[..] == CleanFirst(old(pages[..]))
  {
    ghost var before := pages[..];
    var idx := 0;
    while idx < pages.Length
      invariant 0 <= idx <= pages.Length && idx <= CleanedPages - 1
      invariant CleanedUpTo(pages[..], before, idx)
    {
      ghost var current := pages[..];
      pages[idx] := CleanPage(pages[idx]);
      assert pages[..] == current[idx := CleanPage(before[idx])];
      CleanStep(current, before, idx);
      if idx > 4 {
        CleanedAll(pages[..], before, idx + 1);
        return;
      }
      idx := idx + 1;
    }
    CleanedAll(pages[..], before, idx);
  }

  /** The first n pages are cleaned and the rest are as they were. */
  ghost predicate CleanedUpTo(current: seq<Document>, before: seq<Document>, n: nat)
  {
    |current| == |before| && n <= |before|
    && forall i :: 0 <= i < |current| ==> current[i] == if i < n then CleanPage(before[i]) else before[i]
  }

  lemma CleanStep(current: seq<Document>, before: seq<Document>, n: nat)
    requires CleanedUpTo(current, before, n) && n < |current|
    ensures CleanedUpTo(current[n := CleanPage(before[n])], before, n + 1)
  {
  }

  lemma CleanedAll(current: seq<Document>, before: seq<Document>, n: nat)
    requires CleanedUpTo(current, before, n)
    requires n == |before| <= CleanedPages || n == CleanedPages
    ensures current == CleanFirst(before)
  {
  }

  /** `[item for sublist in lists for item in sublist]`. */
  function Flatten<T>(lists: seq<seq<T>>): (r: seq<T>)
    ensures lists == [] ==> r == []
  {
    if lists == [] then [] else lists[0] + Flatten(lists[1..])
  }

  lemma {:induction false} FlattenSnoc<T>(lists: seq<seq<T>>, x: seq<T>)
    ensures Flatten(lists + [x]) == Flatten(lists) + x
  {
    if lists != [] {
      assert (lists + [x])[1..] == lists[1..] + [x];
      FlattenSnoc(lists[1..], x);
    } else {
      assert Flatten([x]) == x + Flatten<T>([]);
    }
  }

  /** The length of a flattened list is the sum of the lengths. */
  function TotalLength<T>(lists: seq<seq<T>>): nat
  {
    if lists == [] then 0 else |lists[0]| + TotalLength(lists[1..])
  }

  lemma {:induction false} FlattenLength<T>(lists: seq<seq<T>>)
    ensures |Flatten(lists)| == TotalLength(lists)
  {
    if lists != [] {
      FlattenLength(lists[1..]);
    }
  }

  // ----- a list extended in place -----

  /** A Python list of documents that `extend` grows in place. */
  class DocumentList {
    var items: seq<Document>

    constructor (docs: seq<Document>)
      ensures items == docs
    {
      items := docs;
    }

    /** `self.extend(docs)`. */
    method Extend(docs: seq<Document>)
      modifies this
      ensures items == old(items) + docs
    {
      items := items + docs;
    }
  }
}
