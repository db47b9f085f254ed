/**
 * Stage 2 routing (`InformationCompressorNode.summerizer`): each classification
 * record goes to at most one of the docstring, documentation and config lists,
 * and the work items are dispatched list after list.
 */
module Routing {
  import opened Wrappers
  import opened PyText
  import opened Records

  /** `file.get("file_name", "").lower()`. */
  function LoweredName(r: Record): string {
    Lower(r.fileName.GetOr(""))
  }

  /**
   * The category of a record, or None when it is excluded. The tests are tried in
   * order: a code label outside notebooks and `__init__.py` files; then `.md` in the
   * lowered path; then `.yaml` or `.yml` in the lowered path or `.yml` in the lowered
   * file name. The notebook and `__init__.py` tests look at the path as it is.
   */
  function Route(r: Record): Option<Category> {
    var path := r.filePath;
    if Contains(Lower(r.classification), "code") && !Contains(path, "ipynb") && !Contains(path, "__init__.py") then
      Some(Docstring)
    else if Contains(Lower(path), ".md") then
      Some(Documentation)
    else if Contains(Lower(path), ".yaml") || Contains(Lower(path), ".yml") || Contains(LoweredName(r), ".yml") then
      Some(Config)
    else
      None
  }

  /** The routing chain in terms of substring occurrence: each outcome holds exactly when its test is the first to pass. */
  lemma RouteSpec(r: Record)
    ensures var c := Route(r);
            var code := Occurs(Lower(r.classification), "code")
                        && !Occurs(r.filePath, "ipynb") && !Occurs(r.filePath, "__init__.py");
            var md := Occurs(Lower(r.filePath), ".md");
            var yaml := Occurs(Lower(r.filePath), ".yaml") || Occurs(Lower(r.filePath), ".yml")
                        || Occurs(LoweredName(r), ".yml");
            && (c == Some(Docstring) <==> code)
            && (c == Some(Documentation) <==> !code && md)
            && (c == Some(Config) <==> !code && !md && yaml)
            && (c == None <==> !code && !md && !yaml)
  {
  }

  /** A record as Stage 1 leaves it, with no file name. */
  function Classified(path: string, classification: string): Record {
    Record(0, None, classification, path, None, None)
  }

  /** A file classified as code goes to the docstring list, whatever the case of its label. */
  lemma RoutesCodeFile()
    ensures Route(Classified("a.py", "Code")) == Some(Docstring)
  {
    assert Lower("Code") == "code";
  }

  /** A markdown file not classified as code goes to the documentation list. */
  lemma RoutesMarkdownFile()
    ensures Route(Classified("docs/b.md", "")) == Some(Documentation)
  {
    assert Lower("docs/b.md") == "docs/b.md" && OccursAt("docs/b.md", ".md", 6);
  }

  /** A YAML file goes to the config list; the path is lowered before the test. */
  lemma RoutesYamlFile()
    ensures Route(Classified("conf/c.YAML", "")) == Some(Config)
  {
    assert Lower("conf/c.YAML") == "conf/c.yaml" && OccursAt("conf/c.yaml", ".yaml", 6);
    MissingCharNotOccurs("conf/c.yaml", ".md", 2);
  }

  /** A notebook classified as code is excluded from every list. */
  lemma ExcludesNotebook()
    ensures Route(Classified("nb.ipynb", "code")) == None
  {
    assert Lower("nb.ipynb") == "nb.ipynb" && OccursAt("nb.ipynb", "ipynb", 3);
    MissingCharNotOccurs("nb.ipynb", ".md", 2);
    MissingCharNotOccurs("nb.ipynb", ".yaml", 4);
    MissingCharNotOccurs("nb.ipynb", ".yml", 3);
  }

  /** The substring tests on the path `pkg/__init__.py`: only the `__init__.py` test passes. */
  lemma PackageInitPathTests()
    ensures Contains("pkg/__init__.py", "__init__.py")
    ensures !Contains(Lower("pkg/__init__.py"), ".md")
    ensures !Contains(Lower("pkg/__init__.py"), ".yaml") && !Contains(Lower("pkg/__init__.py"), ".yml")
  {
    var path := "pkg/__init__.py";
    assert OccursAt(path, "__init__.py", 4);
    assert Lower(path) == path;
    MissingCharNotOccurs(path, ".md", 2);
    MissingCharNotOccurs(path, ".yaml", 2);
    MissingCharNotOccurs(path, ".yml", 2);
  }

  /** An `__init__.py` file classified as code is excluded from every list. */
  lemma ExcludesPackageInit()
    ensures Route(Classified("pkg/__init__.py", "code")) == None
  {
    PackageInitPathTests();
    assert LoweredName(Classified("pkg/__init__.py", "code")) == "";
  }

  /** The code test comes first: a `.md` file classified as code is a docstring item. */
  lemma CodeLabelWinsOverMarkdown()
    ensures Route(Classified("notes.md", "code")) == Some(Docstring)
  {
    assert Lower("code") == "code" && OccursAt("code", "code", 0);
    MissingCharNotOccurs("notes.md", "ipynb", 0);
  }

  /**
   * The markdown test is a substring test, not a suffix test: a file under a directory
   * whose name holds `.md` is a documentation item.
   */
  lemma MarkdownTestIsSubstring()
    ensures Route(Classified("notes.md/setup.cfg", "")) == Some(Documentation)
  {
    assert Lower("notes.md/setup.cfg") == "notes.md/setup.cfg" && OccursAt("notes.md/setup.cfg", ".md", 5);
  }

  /** The `files_structure_*` list of category `c`: its records' paths, in record order. */
  function Routed(records: seq<Record>, c: Category): (items: seq<WorkItem>)
    ensures |items| <= |records|
  {
    if |records| == 0 then []
    else
      var prefix := records[..|records| - 1];
      var last := records[|records| - 1];
      var prev := Routed(prefix, c);
      if Route(last) == Some(c) then prev + [WorkItem(last.filePath, c)] else prev
  }

  /** The list of `c` holds only items of category `c`. */
  lemma {:induction false} RoutedCategory(records: seq<Record>, c: Category)
    ensures forall k :: 0 <= k < |Routed(records, c)| ==> Routed(records, c)[k].category == c
  {
    if |records| > 0 {
      RoutedCategory(records[..|records| - 1], c);
    }
  }

  /** Every item in the list of `c` names the path of a record routed to `c`. */
  lemma {:induction false} RoutedSound(records: seq<Record>, c: Category, k: nat)
    requires k < |Routed(records, c)|
    ensures exists j :: 0 <= j < |records| && Route(records[j]) == Some(c) && Routed(records, c)[k].path == records[j].filePath
  {
    var n := |records| - 1;
    var prefix := records[..n];
    var prev := Routed(prefix, c);
    if k < |prev| {
      RoutedSound(prefix, c, k);
      var j :| 0 <= j < |prefix| && Route(prefix[j]) == Some(c) && prev[k].path == prefix[j].filePath;
      assert prefix[j] == records[j];
      assert Routed(records, c)[k] == prev[k];
    } else {
      assert Route(records[n]) == Some(c);
      assert Routed(records, c)[k].path == records[n].filePath;
    }
  }

  /**
   * The list-building loop for an arbitrary routing function. Reasoning about the order of
   * the list needs only the loop's shape, not the substring tests behind `Route`.
   */
  function RoutedBy(records: seq<Record>, c: Category, route: Record -> Option<Category>): seq<WorkItem> {
    if |records| == 0 then []
    else
      var prev := RoutedBy(records[..|records| - 1], c, route);
      var last := records[|records| - 1];
      if route(last) == Some(c) then prev + [WorkItem(last.filePath, c)] else prev
  }

  /** The list built from `a` then `b` is the list of `a` followed by the list of `b`. */
  lemma {:induction false} RoutedByAppend(a: seq<Record>, b: seq<Record>, c: Category, route: Record -> Option<Category>)
    ensures RoutedBy(a + b, c, route) == RoutedBy(a, c, route) + RoutedBy(b, c, route)
    decreases |b|
  {
    if |b| == 0 {
      assert a + b == a;
    } else {
      var n := |b| - 1;
      var ab := a + b;
      assert ab[..|ab| - 1] == a + b[..n] && ab[|ab| - 1] == b[n];
      RoutedByAppend(a, b[..n], c, route);
    }
  }

  /** `Routed` is the loop run with `Route`. */
  lemma {:induction false} RoutedIsRoutedBy(records: seq<Record>, c: Category)
    ensures Routed(records, c) == RoutedBy(records, c, Route)
  {
    if |records| > 0 {
      RoutedIsRoutedBy(records[..|records| - 1], c);
    }
  }

  /**
   * Each list keeps record order: the list built from records `a` followed by records `b`
   * is the list of `a` followed by the list of `b`.
   */
  lemma RoutedAppend(a: seq<Record>, b: seq<Record>, c: Category)
    ensures Routed(a + b, c) == Routed(a, c) + Routed(b, c)
  {
    RoutedIsRoutedBy(a + b, c);
    RoutedIsRoutedBy(a, c);
    RoutedIsRoutedBy(b, c);
    RoutedByAppend(a, b, c, Route);
  }

  /** Every record routed to `c` has its item in the list of `c`. */
  lemma {:induction false} RoutedComplete(records: seq<Record>, c: Category, j: nat)
    requires j < |records| && Route(records[j]) == Some(c)
    ensures WorkItem(records[j].filePath, c) in Routed(records, c)
  {
    var n := |records| - 1;
    if j < n {
      RoutedComplete(records[..n], c, j);
    }
  }

  /** `all_files_to_process`: docstring items, then documentation items, then config items. */
  function Dispatched(records: seq<Record>): seq<WorkItem> {
    Routed(records, Docstring) + Routed(records, Documentation) + Routed(records, Config)
  }

  /** Every dispatched item names the path of some record routed to its category. */
  lemma DispatchedFromRecords(records: seq<Record>, i: nat)
    requires i < |Dispatched(records)|
    ensures var item := Dispatched(records)[i];
      exists j :: 0 <= j < |records| && Route(records[j]) == Some(item.category) && records[j].filePath == item.path
  {
    var d, m, c := Routed(records, Docstring), Routed(records, Documentation), Routed(records, Config);
    var items := d + m + c;
    RoutedCategory(records, Docstring);
    RoutedCategory(records, Documentation);
    RoutedCategory(records, Config);
    if i < |d| {
      assert items[i] == d[i];
      RoutedSound(records, Docstring, i);
    } else if i < |d| + |m| {
      assert items[i] == m[i - |d|];
      RoutedSound(records, Documentation, i - |d|);
    } else {
      assert items[i] == c[i - |d| - |m|];
      RoutedSound(records, Config, i - |d| - |m|);
    }
  }

  /** Every dispatched item's path has an entry in `original_indices`. */
  lemma DispatchedPathsIndexed(records: seq<Record>)
    ensures forall i :: 0 <= i < |Dispatched(records)| ==> Dispatched(records)[i].path in LastIndex(records)
  {
    forall i | 0 <= i < |Dispatched(records)| ensures Dispatched(records)[i].path in LastIndex(records) {
      DispatchedFromRecords(records, i);
    }
  }

  /**
   * What `original_indices` holds: exactly the records' paths, each mapped to the
   * index of the last record with that path.
   */
  ghost predicate IsLastIndex(records: seq<Record>, m: map<string, nat>) {
    && (forall p :: p in m <==> exists j :: 0 <= j < |records| && records[j].filePath == p)
    && (forall p :: p in m ==> m[p] < |records| && records[m[p]].filePath == p)
    && (forall p, j :: p in m && m[p] < j < |records| ==> records[j].filePath != p)
  }

  /** Storing the next record's index under its path keeps `original_indices` exact. */
  lemma LastIndexStep(records: seq<Record>, prev: map<string, nat>)
    requires |records| > 0 && IsLastIndex(records[..|records| - 1], prev)
    ensures IsLastIndex(records, prev[records[|records| - 1].filePath := |records| - 1])
  {
    var n := |records| - 1;
    var prefix := records[..n];
    var m := prev[records[n].filePath := n];
    assert forall j :: 0 <= j < n ==> prefix[j] == records[j];
    forall p ensures p in m <==> exists j :: 0 <= j < |records| && records[j].filePath == p {
      if j :| 0 <= j < |records| && records[j].filePath == p {
        if j < n {
          assert prefix[j].filePath == p;
        }
      }
    }
    assert forall p :: p in m ==> m[p] <= n && records[m[p]].filePath == p;
  }

  /** `original_indices`: each path maps to the index of its last record. */
  function LastIndex(records: seq<Record>): (m: map<string, nat>)
    ensures IsLastIndex(records, m)
  {
    if |records| == 0 then map[]
    else
      var n := |records| - 1;
      var prev := LastIndex(records[..n]);
      LastIndexStep(records, prev);
      prev[records[n].filePath := n]
  }

  /** One more record: its index is stored under its path. */
  lemma LastIndexSnoc(records: seq<Record>, i: nat)
    requires i < |records|
    ensures LastIndex(records[..i + 1]) == LastIndex(records[..i])[records[i].filePath := i]
  {
    assert records[..i + 1][..i] == records[..i];
  }

  /** One more record: it is appended to the list of its category, if any. */
  lemma RoutedSnoc(records: seq<Record>, c: Category, i: nat)
    requires i < |records|
    ensures Routed(records[..i + 1], c) ==
      if Route(records[i]) == Some(c) then Routed(records[..i], c) + [WorkItem(records[i].filePath, c)]
      else Routed(records[..i], c)
  {
    assert records[..i + 1][..i] == records[..i];
  }

  /** Number of records routed to some category. */
  function RoutedCount(records: seq<Record>): nat {
    if |records| == 0 then 0
    else RoutedCount(records[..|records| - 1]) + (if Route(records[|records| - 1]).Some? then 1 else 0)
  }

  /** Each record is dispatched at most once: the three lists together hold one item per routed record. */
  lemma {:induction false} DispatchedCount(records: seq<Record>)
    ensures |Dispatched(records)| == RoutedCount(records)
  {
    if |records| > 0 {
      DispatchedCount(records[..|records| - 1]);
    }
  }

  /** Items appear list by list: every docstring item before every documentation item, both before config items. */
  lemma {:induction false} DispatchOrder(records: seq<Record>)
    ensures var items := Dispatched(records);
      forall a, b :: 0 <= a < b < |items| ==> Rank(items[a].category) <= Rank(items[b].category)
  {
    var d, m, c := Routed(records, Docstring), Routed(records, Documentation), Routed(records, Config);
    var items := d + m + c;
    RoutedCategory(records, Docstring);
    RoutedCategory(records, Documentation);
    RoutedCategory(records, Config);
    forall k | 0 <= k < |items|
      ensures Rank(items[k].category) == if k < |d| then 0 else if k < |d| + |m| then 1 else 2
    {
      if k < |d| {
        assert items[k] == d[k];
      } else if k < |d| + |m| {
        assert items[k] == m[k - |d|];
      } else {
        assert items[k] == c[k - |d| - |m|];
      }
    }
  }

  /**
   * The loop over `classified_files["file_classifications"]`: fills the three
   * category lists and `original_indices`, and returns the concatenated work list.
   */
  method Partition(records: seq<Record>) returns (items: seq<WorkItem>, originalIndices: map<string, nat>)
    ensures items == Dispatched(records)
    ensures originalIndices == LastIndex(records)
  {
    var docstring, documentation, config := [], [], [];
    originalIndices := map[];
    var index := 0;
    while index < |records|
      invariant 0 <= index <= |records|
      invariant docstring == Routed(records[..index], Docstring)
      invariant documentation == Routed(records[..index], Documentation)
      invariant config == Routed(records[..index], Config)
      invariant originalIndices == LastIndex(records[..index])
    {
      var file := records[index];
      LastIndexSnoc(records, index);
      RoutedSnoc(records, Docstring, index);
      RoutedSnoc(records, Documentation, index);
      RoutedSnoc(records, Config, index);
      originalIndices := originalIndices[file.filePath := index];
      match Route(file) {
        case Some(Docstring) => docstring := docstring + [WorkItem(file.filePath, Docstring)];
        case Some(Documentation) => documentation := documentation + [WorkItem(file.filePath, Documentation)];
        case Some(Config) => config := config + [WorkItem(file.filePath, Config)];
        case None =>
      }
      index := index + 1;
    }
    assert records[..|records|] == records;
    items := docstring + documentation + config;
  }
}
