/**
 * backend/routes/evals.py: pairing generated HTML outputs with their input screenshots.
 * A folder is given as its listing, in `os.listdir` order, with each file's contents
 * already read; `fs` maps each existing folder path to its listing, and `inputs` maps a
 * base name to the data URL of `inputs/<base>.png` when that image exists.
 */
module Evals {
  import opened Wrappers
  import opened PyStrings

  /** `Eval` */
  datatype Eval = Eval(input: string, outputs: seq<string>)

  /** A folder's files, in listing order, with their contents. */
  type Listing = seq<(string, string)>

  type FileSystem = map<string, Listing>

  /** An `HTTPException` raised by `get_evals`. */
  datatype HttpError = HttpError(status: nat, detail: string)

  datatype PairwiseResponse = PairwiseResponse(evals: seq<Eval>, folder1Name: string, folder2Name: string)

  datatype BestOfNResponse = BestOfNResponse(evals: seq<Eval>, folderNames: seq<string>)

  /** The 1×1 transparent PNG used when a base name has no input image. */
  const FallbackImage: string :=
    "data:image/png;base64,iVBORw0KGgoAAAANSUhEUgAAAAEAAAABCAQAAAC1HAwCAAAAC0lEQVR42mNkYAAAAAYAAjCB0C8AAAAASUVORK5CYII="

  const MissingOutput: string := "<html><body>Output not found</body></html>"

  // ---------------------------------------------------------------- file names

  /** The `{f: ... for f in os.listdir(folder) if f.endswith(".html")}` comprehensions. */
  function HtmlFiles(listing: Listing): (r: Listing)
    ensures forall f :: f in r <==> f in listing && EndsWith(f.0, ".html")
    ensures |r| <= |listing|
    decreases |listing|
  {
    if |listing| == 0 then []
    else if EndsWith(listing[0].0, ".html") then [listing[0]] + HtmlFiles(listing[1..])
    else HtmlFiles(listing[1..])
  }

  /**
   * `f.rsplit("_", 1)[0] if "_" in f else f.replace(".html", "")`: with an underscore,
   * everything before the last one.
   */
  function BaseName(name: string): (r: string)
    ensures '_' in name ==> |r| < |name| && r == name[..|r|] && name[|r|] == '_' && '_' !in name[|r| + 1..]
  {
    match LastIndexOf(name, '_')
    case Some(k) => name[..k]
    case None => ReplaceAll(name, ".html", "")
  }

  /** With an underscore, everything before the last one. */
  lemma BaseNameUnderscore(stem: string, suffix: string)
    requires '_' !in suffix
    ensures BaseName(stem + "_" + suffix) == stem
  {
    var name := stem + "_" + suffix;
    assert name[|stem|] == '_';
    assert name[|stem| + 1..] == suffix;
  }

  /** Without one, the name with `.html` removed: `test.html` becomes `test`. */
  lemma BaseNameHtml(stem: string)
    requires '_' !in stem && OnlyTrailing(stem, ".html")
    ensures BaseName(stem + ".html") == stem
  {
    ReplaceTrailing(stem, ".html", "");
    assert stem + "" == stem;
  }

  lemma BaseNameExample()
    ensures BaseName("test.html") == "test"
  {
    var stem := "test";
    assert forall i :: 0 <= i < |stem| ==> stem[i] != '_' && stem[i] != '.';
    OnlyTrailingByFirstChar(stem, ".html");
    BaseNameHtml(stem);
    assert stem + ".html" == "test.html";
  }

  /** A dotted stem keeps its dots: only the trailing `.html` is removed. */
  lemma BaseNameDottedExample()
    ensures BaseName("page.v2.html") == "page.v2"
  {
    var stem := "page.v2";
    assert forall i :: 0 <= i < |stem| ==> stem[i] != '_';
    forall i | 0 <= i < |stem| ensures !StartsWith((stem + ".html")[i..], ".html") {
      if stem[i] == '.' {
        assert i == 4;
        NotStartsWithAt((stem + ".html")[i..], ".html", 1);
      } else {
        NotStartsWithAt((stem + ".html")[i..], ".html", 0);
      }
    }
    BaseNameHtml(stem);
    assert stem + ".html" == "page.v2.html";
  }

  /** The base names of a folder's files, as a set. */
  function BaseNames(files: Listing): (r: set<string>)
    ensures forall b :: b in r <==> exists k :: 0 <= k < |files| && BaseName(files[k].0) == b
  {
    set k | 0 <= k < |files| :: BaseName(files[k].0)
  }

  /** `any(f.startswith(base_name) for f in folder_files.keys())` */
  predicate AnyStartsWith(files: Listing, base: string) {
    exists j :: 0 <= j < |files| && StartsWith(files[j].0, base)
  }

  /** The contents of the first file, in listing order, whose name starts with `base`. */
  function FirstMatch(files: Listing, base: string): (r: Option<string>)
    ensures r.None? <==> !AnyStartsWith(files, base)
    decreases |files|
  {
    if |files| == 0 then None
    else if StartsWith(files[0].0, base) then Some(files[0].1)
    else
      assert forall j :: 1 <= j < |files| ==> files[1..][j - 1] == files[j];
      FirstMatch(files[1..], base)
  }

  /** An HTML file of `listing` whose name starts with `base`. */
  predicate HtmlMatch(f: (string, string), base: string) {
    EndsWith(f.0, ".html") && StartsWith(f.0, base)
  }

  /**
   * Among a folder's HTML files, the output picked for `base` is the first HTML file of
   * the listing whose name starts with it; no earlier one does.
   */
  lemma {:induction false} FirstMatchIsFirst(listing: Listing, base: string)
    ensures FirstMatch(HtmlFiles(listing), base).Some? ==>
      exists k :: 0 <= k < |listing| && HtmlMatch(listing[k], base)
        && FirstMatch(HtmlFiles(listing), base).value == listing[k].1
        && forall j :: 0 <= j < k ==> !HtmlMatch(listing[j], base)
    ensures FirstMatch(HtmlFiles(listing), base).None? <==>
      forall j :: 0 <= j < |listing| ==> !HtmlMatch(listing[j], base)
    decreases |listing|
  {
    if |listing| > 0 {
      var rest := listing[1..];
      FirstMatchIsFirst(rest, base);
      var h := HtmlFiles(listing);
      if EndsWith(listing[0].0, ".html") {
        assert h == [listing[0]] + HtmlFiles(rest);
        assert h[1..] == HtmlFiles(rest);
      } else {
        assert h == HtmlFiles(rest);
      }
      assert forall j :: 1 <= j < |listing| ==> listing[j] == rest[j - 1];
      if !HtmlMatch(listing[0], base) {
        assert FirstMatch(h, base) == FirstMatch(HtmlFiles(rest), base);
        if FirstMatch(h, base).Some? {
          var k :| 0 <= k < |rest| && HtmlMatch(rest[k], base)
            && FirstMatch(HtmlFiles(rest), base).value == rest[k].1
            && forall j :: 0 <= j < k ==> !HtmlMatch(rest[j], base);
          assert listing[k + 1] == rest[k];
        }
      }
    }
  }

  /** The image for `base`, or the fallback when `inputs/<base>.png` does not exist. */
  function InputImage(inputs: map<string, string>, base: string): (r: string)
    ensures base in inputs ==> r == inputs[base]
    ensures base !in inputs ==> r == FallbackImage
  {
    if base in inputs then inputs[base] else FallbackImage
  }

  /** `os.path.basename`: the longest suffix of `path` without a `/`. */
  function PathBaseName(path: string): (r: string)
    ensures '/' !in r
    ensures EndsWith(path, r)
    ensures |r| == |path| || path[|path| - |r| - 1] == '/'
  {
    match LastIndexOf(path, '/')
    case Some(k) => path[k + 1..]
    case None => path
  }

  // ---------------------------------------------------------------- collecting evals

  /**
   * `evals` holds one eval per name of `names` that `make` turns into one, in the order
   * the names were visited (`order`, each name once): the loops over a `set`, whose
   * iteration order is unspecified.
   */
  ghost predicate Emits(evals: seq<Eval>, order: seq<string>, names: set<string>, make: string -> Option<Eval>) {
    |order| == |evals|
    && (forall i :: 0 <= i < |order| ==> order[i] in names && make(order[i]) == Some(evals[i]))
    && (forall i, j :: 0 <= i < j < |order| ==> order[i] != order[j])
    && (forall b :: b in names && make(b).Some? ==> b in order)
  }

  /** `for base_name in names: ... evals.append(...)`, visiting the names in an arbitrary order. */
  method CollectEvals(names: set<string>, make: string -> Option<Eval>) returns (evals: seq<Eval>, ghost order: seq<string>)
    ensures Emits(evals, order, names, make)
  {
    evals := [];
    order := [];
    var remaining := names;
    while remaining != {}
      invariant remaining <= names
      invariant |order| == |evals|
      invariant forall i :: 0 <= i < |order| ==> order[i] in names - remaining && make(order[i]) == Some(evals[i])
      invariant forall i, j :: 0 <= i < j < |order| ==> order[i] != order[j]
      invariant forall b :: b in names - remaining && make(b).Some? ==> b in order
      decreases |remaining|
    {
      var b :| b in remaining;
      var e := make(b);
      if e.Some? {
        evals := evals + [e.value];
        order := order + [b];
      }
      remaining := remaining - {b};
    }
  }

  // ---------------------------------------------------------------- get_evals

  /**
   * The eval `get_evals` makes for `base`: exactly the base names with an input image and
   * a matching file give one, with the input and that one output.
   */
  function SingleEval(files: Listing, inputs: map<string, string>, base: string): (r: Option<Eval>)
    ensures r.Some? <==> base in inputs && AnyStartsWith(files, base)
    ensures r.Some? ==> r.value == Eval(inputs[base], [FirstMatch(files, base).value]) && |r.value.outputs| == 1
  {
    if base !in inputs then None
    else
      match FirstMatch(files, base)
      case None => None
      case Some(html) => Some(Eval(inputs[base], [html]))
  }

  /** `get_evals`; the status-500 path for I/O failures is not part of this model. */
  method GetEvals(fs: FileSystem, inputs: map<string, string>, folder: string)
    returns (r: Result<seq<Eval>, HttpError>, ghost order: seq<string>)
    ensures folder == "" ==> r == Err(HttpError(400, "Folder path is required"))
    ensures folder != "" && folder !in fs ==> r == Err(HttpError(404, "Folder not found: " + folder))
    ensures folder != "" && folder in fs ==>
      var files := HtmlFiles(fs[folder]);
      r.Ok? && Emits(r.value, order, BaseNames(files), b => SingleEval(files, inputs, b))
  {
    order := [];
    if folder == "" {
      return Err(HttpError(400, "Folder path is required")), order;
    }
    if folder !in fs {
      return Err(HttpError(404, "Folder not found: " + folder)), order;
    }
    var files := HtmlFiles(fs[folder]);
    var baseNames: set<string> := {};
    for i := 0 to |files|
      invariant baseNames == set k | 0 <= k < i :: BaseName(files[k].0)
    {
      baseNames := baseNames + {BaseName(files[i].0)};
    }
    assert baseNames == BaseNames(files);
    var evals;
    evals, order := CollectEvals(baseNames, b => SingleEval(files, inputs, b));
    r := Ok(evals);
  }

  // ---------------------------------------------------------------- get_pairwise_evals

  /** The common names: base names of folder 1 that some file name of folder 2 starts with. */
  method PairwiseCommonNames(files1: Listing, files2: Listing) returns (common: set<string>)
    ensures forall b :: b in common <==> b in BaseNames(files1) && AnyStartsWith(files2, b)
  {
    common := {};
    for i := 0 to |files1|
      invariant forall b :: b in common <==>
        (exists k :: 0 <= k < i && BaseName(files1[k].0) == b) && AnyStartsWith(files2, b)
    {
      var base := BaseName(files1[i].0);
      for j := 0 to |files2|
        invariant forall b :: b in common <==>
          ((exists k :: 0 <= k < i && BaseName(files1[k].0) == b) && AnyStartsWith(files2, b))
          || (b == base && exists m :: 0 <= m < j && StartsWith(files2[m].0, base))
      {
        if StartsWith(files2[j].0, base) {
          common := common + {base};
        }
      }
    }
  }

  /** `if output1 and output2`: found, and not empty. */
  predicate Truthy(output: Option<string>) {
    output.Some? && output.value != ""
  }

  /** The eval for `base`: made only when both outputs are non-empty; they come in folder order. */
  function PairEval(files1: Listing, files2: Listing, inputs: map<string, string>, base: string): (r: Option<Eval>)
    ensures r.Some? <==> Truthy(FirstMatch(files1, base)) && Truthy(FirstMatch(files2, base))
    ensures r.Some? ==>
      r.value.input == InputImage(inputs, base)
      && r.value.outputs == [FirstMatch(files1, base).value, FirstMatch(files2, base).value]
      && r.value.outputs[0] != "" && r.value.outputs[1] != ""
  {
    var output1 := FirstMatch(files1, base);
    var output2 := FirstMatch(files2, base);
    if Truthy(output1) && Truthy(output2)
    then Some(Eval(InputImage(inputs, base), [output1.value, output2.value]))
    else None
  }

  /** `get_pairwise_evals`; the error dict becomes `Err`. */
  method GetPairwiseEvals(fs: FileSystem, inputs: map<string, string>, folder1: string, folder2: string)
    returns (r: Result<PairwiseResponse, string>, ghost order: seq<string>, ghost common: set<string>)
    ensures folder1 !in fs || folder2 !in fs ==> r == Err("One or both folders do not exist")
    ensures folder1 in fs && folder2 in fs ==>
      var files1 := HtmlFiles(fs[folder1]);
      var files2 := HtmlFiles(fs[folder2]);
      (forall b :: b in common <==> b in BaseNames(files1) && AnyStartsWith(files2, b))
      && r.Ok? && r.value.folder1Name == PathBaseName(folder1) && r.value.folder2Name == PathBaseName(folder2)
      && Emits(r.value.evals, order, common, b => PairEval(files1, files2, inputs, b))
  {
    order := [];
    common := {};
    if folder1 !in fs || folder2 !in fs {
      return Err("One or both folders do not exist"), order, common;
    }
    var files1 := HtmlFiles(fs[folder1]);
    var files2 := HtmlFiles(fs[folder2]);
    var names := PairwiseCommonNames(files1, files2);
    common := names;
    var evals;
    evals, order := CollectEvals(names, b => PairEval(files1, files2, inputs, b));
    r := Ok(PairwiseResponse(evals, PathBaseName(folder1), PathBaseName(folder2)));
  }

  // ---------------------------------------------------------------- get_best_of_n_evals

  /** The query parameter `folder<i>`. */
  function FolderKey(i: nat): (r: string) {
    "folder" + NatToString(i)
  }

  lemma FolderKeyInjective(a: nat, b: nat)
    requires FolderKey(a) == FolderKey(b)
    ensures a == b
  {
    assert FolderKey(a)[6..] == NatToString(a);
    assert FolderKey(b)[6..] == NatToString(b);
    NatToStringInjective(a, b);
  }

  /** `folders` holds `folder1`, `folder2`, ... in order, up to the first index missing from the query. */
  predicate IsFolderScan(query: map<string, string>, folders: seq<string>) {
    (forall k :: 1 <= k <= |folders| ==> FolderKey(k) in query && folders[k - 1] == query[FolderKey(k)])
    && FolderKey(|folders| + 1) !in query
  }

  /** The scan has one outcome for a given query. */
  lemma FolderScanUnique(query: map<string, string>, a: seq<string>, b: seq<string>)
    requires IsFolderScan(query, a) && IsFolderScan(query, b)
    ensures a == b
  {
    assert |a| == |b|;
    assert forall k :: 0 <= k < |a| ==> a[k] == query[FolderKey(k + 1)] == b[k];
  }

  lemma SubsetSize(a: set<string>, b: set<string>)
    requires a <= b
    ensures |a| <= |b|
  {
    assert b == a + (b - a);
    assert a * (b - a) == {};
  }

  /** The `while f"folder{i}" in query_params` scan. */
  method FolderParams(query: map<string, string>) returns (folders: seq<string>)
    ensures IsFolderScan(query, folders)
  {
    folders := [];
    var i := 1;
    ghost var seen: set<string> := {};
    while FolderKey(i) in query
      invariant i == |folders| + 1
      invariant forall k :: 1 <= k <= |folders| ==> FolderKey(k) in query && folders[k - 1] == query[FolderKey(k)]
      invariant seen <= query.Keys && |seen| == i - 1
      invariant forall s :: s in seen ==> exists k :: 1 <= k < i && s == FolderKey(k)
      decreases |query.Keys| - |seen|
    {
      if FolderKey(i) in seen {
        var k :| 1 <= k < i && FolderKey(i) == FolderKey(k);
        FolderKeyInjective(i, k);
      }
      SubsetSize(seen + {FolderKey(i)}, query.Keys);
      seen := seen + {FolderKey(i)};
      folders := folders + [query[FolderKey(i)]];
      i := i + 1;
    }
  }

  /** The first listed folder that does not exist. */
  function FirstMissing(folders: seq<string>, fs: FileSystem): (r: Option<string>)
    ensures r.None? <==> forall k :: 0 <= k < |folders| ==> folders[k] in fs
    ensures r.Some? ==>
      exists k :: 0 <= k < |folders| && folders[k] == r.value && folders[k] !in fs
        && forall j :: 0 <= j < k ==> folders[j] in fs
    decreases |folders|
  {
    if |folders| == 0 then None
    else if folders[0] !in fs then Some(folders[0])
    else
      var r := FirstMissing(folders[1..], fs);
      assert forall j :: 1 <= j < |folders| ==> folders[1..][j - 1] == folders[j];
      assert r.Some? ==>
        exists k :: 1 <= k < |folders| && folders[k] == r.value && folders[k] !in fs
          && forall j :: 0 <= j < k ==> folders[j] in fs;
      r
  }

  /** The HTML files of each folder, in folder order. */
  function FilesByFolder(fs: FileSystem, folders: seq<string>): (r: seq<Listing>)
    requires forall k :: 0 <= k < |folders| ==> folders[k] in fs
    ensures |r| == |folders| && forall k :: 0 <= k < |folders| ==> r[k] == HtmlFiles(fs[folders[k]])
  {
    seq(|folders|, k requires 0 <= k < |folders| => HtmlFiles(fs[folders[k]]))
  }

  /** The common names: base names of the first folder matched by a file name in every other folder. */
  method BestOfNCommonNames(byFolder: seq<Listing>) returns (common: set<string>)
    requires |byFolder| >= 1
    ensures forall b :: b in common <==>
      b in BaseNames(byFolder[0]) && forall k :: 1 <= k < |byFolder| ==> AnyStartsWith(byFolder[k], b)
  {
    common := {};
    var firstNames := BaseNames(byFolder[0]);
    var remaining := firstNames;
    while remaining != {}
      invariant remaining <= firstNames
      invariant forall b :: b in common <==>
        b in firstNames - remaining && forall k :: 1 <= k < |byFolder| ==> AnyStartsWith(byFolder[k], b)
      decreases |remaining|
    {
      var base :| base in remaining;
      var foundInAll := FoundInAll(byFolder, base);
      if foundInAll {
        common := common + {base};
      }
      remaining := remaining - {base};
    }
  }

  /** The `found_in_all` scan: every folder after the first has a file name starting with `base`. */
  method FoundInAll(byFolder: seq<Listing>, base: string) returns (found: bool)
    ensures found <==> forall k :: 1 <= k < |byFolder| ==> AnyStartsWith(byFolder[k], base)
  {
    found := true;
    var k := 1;
    while k < |byFolder|
      invariant 1 <= k
      invariant forall m :: 1 <= m < k && m < |byFolder| ==> AnyStartsWith(byFolder[m], base)
    {
      if !AnyStartsWith(byFolder[k], base) {
        found := false;
        break;
      }
      k := k + 1;
    }
  }

  /** A folder's output for `base`: the first match, or the placeholder when there is none or it is empty. */
  function OutputOrMissing(output: Option<string>): (r: string)
    ensures Truthy(output) ==> r == output.value
    ensures !Truthy(output) ==> r == MissingOutput
  {
    match output
    case Some(html) => if html != "" then html else MissingOutput
    case None => MissingOutput
  }

  /** Every common name gives an eval with exactly one output per folder, in folder order. */
  function BestEval(byFolder: seq<Listing>, inputs: map<string, string>, base: string): (r: Option<Eval>)
    ensures r.Some?
    ensures r.value.input == InputImage(inputs, base) && |r.value.outputs| == |byFolder|
    ensures forall k :: 0 <= k < |byFolder| ==>
      (Truthy(FirstMatch(byFolder[k], base)) ==> r.value.outputs[k] == FirstMatch(byFolder[k], base).value)
      && (!Truthy(FirstMatch(byFolder[k], base)) ==> r.value.outputs[k] == MissingOutput)
  {
    Some(Eval(InputImage(inputs, base),
              seq(|byFolder|, k requires 0 <= k < |byFolder| => OutputOrMissing(FirstMatch(byFolder[k], base)))))
  }

  /** Checking the folders in order: the error names the first one that does not exist. */
  method CheckFolders(fs: FileSystem, folders: seq<string>) returns (missing: Option<string>)
    ensures missing == FirstMissing(folders, fs)
  {
    for k := 0 to |folders|
      invariant forall j :: 0 <= j < k ==> folders[j] in fs
    {
      if folders[k] !in fs {
        return Some(folders[k]);
      }
    }
    return None;
  }

  /** `get_best_of_n_evals`; the error dicts become `Err`. */
  method GetBestOfNEvals(fs: FileSystem, inputs: map<string, string>, query: map<string, string>)
    returns (r: Result<BestOfNResponse, string>, ghost folders: seq<string>, ghost order: seq<string>, ghost common: set<string>)
    ensures IsFolderScan(query, folders)
    ensures |folders| == 0 ==> r == Err("No folders provided")
    ensures |folders| > 0 && FirstMissing(folders, fs).Some? ==>
      r == Err("Folder does not exist: " + FirstMissing(folders, fs).value)
    ensures |folders| > 0 && FirstMissing(folders, fs).None? ==>
      var byFolder := FilesByFolder(fs, folders);
      (forall b :: b in common <==>
        b in BaseNames(byFolder[0]) && forall k :: 1 <= k < |byFolder| ==> AnyStartsWith(byFolder[k], b))
      && r.Ok? && r.value.folderNames == seq(|folders|, k requires 0 <= k < |folders| => PathBaseName(folders[k]))
      && Emits(r.value.evals, order, common, b => BestEval(byFolder, inputs, b))
  {
    order := [];
    common := {};
    var scanned := FolderParams(query);
    folders := scanned;
    if |scanned| == 0 {
      return Err("No folders provided"), folders, order, common;
    }
    var missing := CheckFolders(fs, scanned);
    if missing.Some? {
      return Err("Folder does not exist: " + missing.value), folders, order, common;
    }
    var folderNames := seq(|scanned|, k requires 0 <= k < |scanned| => PathBaseName(scanned[k]));
    var byFolder := FilesByFolder(fs, scanned);
    var names := BestOfNCommonNames(byFolder);
    common := names;
    var evals;
    evals, order := CollectEvals(names, b => BestEval(byFolder, inputs, b));
    r := Ok(BestOfNResponse(evals, folderNames));
  }
}
